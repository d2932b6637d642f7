/**
 * The stock receipt repository of producto/repositorio.py: validating the
 * request for a receipt (`Ingreso`) and creating the receipt with one line
 * per received product. Requests arrive as `PyValor` values; products are
 * looked up in the catalogue.
 */
module ProductoRepositorio {
  import opened Comun
  import opened Inventario
  import opened Usuarios

  const MENSAJE_LINEAS := "Debe seleccionar al menos un producto."
  const MENSAJE_PRODUCTO := "No se ha encontrado el producto."
  const MENSAJE_CANTIDAD_NUMERICA := "La cantidad del producto debe tener un valor numérico."
  const MENSAJE_PRECIO_NUMERICO := "El precio del producto debe tener un valor numérico."

  // ---------------------------------------------------------------------
  // validar_crear_ingreso

  /**
   * `linea["producto"]["id"]`, with any exception turned into 0: the id
   * when the line is a dictionary whose product entry is a dictionary
   * holding one.
   */
  function IdProducto(l: PyValor): (r: PyValor)
    ensures TieneIdProducto(l) ==> r == l.entradas["producto"].entradas["id"]
    ensures !TieneIdProducto(l) ==> r == PyInt(0)
  {
    match Indexar(l, "producto")
    case Err(_) => PyInt(0)
    case Ok(producto) =>
      match Indexar(producto, "id")
      case Err(_) => PyInt(0)
      case Ok(id) => id
  }

  predicate TieneIdProducto(l: PyValor)
  {
    l.PyDicc? && "producto" in l.entradas && l.entradas["producto"].PyDicc?
    && "id" in l.entradas["producto"].entradas
  }

  /** `int(l[clave]) if clave in l else 0`. */
  function CampoEntero(l: PyValor, clave: string): Result<int, Excepcion>
  {
    match Pertenece(clave, l)
    case Err(e) => Err(e)
    case Ok(esta) =>
      if !esta then Ok(0)
      else
        match Indexar(l, clave)
        case Err(e) => Err(e)
        case Ok(v) => AEntero(v)
  }

  /** The field is absent or converts to an integer. */
  predicate CampoConvertible(l: PyValor, clave: string)
  {
    l.PyDicc? && (clave !in l.entradas || AEntero(l.entradas[clave]).Ok?)
  }

  /** A line both readings let through. */
  predicate LineaIngresoValida(l: PyValor)
  {
    && TieneIdProducto(l)
    && ComoNumero(IdProducto(l)).Some? && ComoNumero(IdProducto(l)).value > 0.0
    && CampoConvertible(l, "cantidad") && CampoConvertible(l, "precio")
  }

  /**
   * One pass of the loop over the lines. As written
   * (`mensajesNumericos` false) the quantity and the price are converted
   * with `int()` before the `isinstance` test that was meant to catch a
   * non-numeric value, so that value raises and the test never fails. The
   * evidently intended reading (`mensajesNumericos` true) reports such a
   * value with its message.
   */
  function ValidarLineaIngreso(l: PyValor, mensajesNumericos: bool): (r: Outcome<Excepcion>)
    ensures r == Pass <==> LineaIngresoValida(l)
    ensures !TieneIdProducto(l) ==> r == Fail(ValidationError(MENSAJE_PRODUCTO))
    ensures ComoNumero(IdProducto(l)).Some? && ComoNumero(IdProducto(l)).value <= 0.0 ==>
      r == Fail(ValidationError(MENSAJE_PRODUCTO))
    ensures !mensajesNumericos ==>
      r != Fail(ValidationError(MENSAJE_CANTIDAD_NUMERICA)) && r != Fail(ValidationError(MENSAJE_PRECIO_NUMERICO))
    ensures mensajesNumericos && TieneIdProducto(l) && ComoNumero(IdProducto(l)).Some? && ComoNumero(IdProducto(l)).value > 0.0 ==>
      (!CampoConvertible(l, "cantidad") ==> r == Fail(ValidationError(MENSAJE_CANTIDAD_NUMERICA)))
      && (CampoConvertible(l, "cantidad") && !CampoConvertible(l, "precio") ==> r == Fail(ValidationError(MENSAJE_PRECIO_NUMERICO)))
  {
    match MenorIgualCero(IdProducto(l))
    case Err(e) => Fail(e)
    case Ok(true) => Fail(ValidationError(MENSAJE_PRODUCTO))
    case Ok(false) =>
      match CampoEntero(l, "cantidad")
      case Err(e) => if mensajesNumericos then Fail(ValidationError(MENSAJE_CANTIDAD_NUMERICA)) else Fail(e)
      case Ok(_) =>
        match CampoEntero(l, "precio")
        case Err(e) => if mensajesNumericos then Fail(ValidationError(MENSAJE_PRECIO_NUMERICO)) else Fail(e)
        case Ok(_) => Pass
  }

  /** Line `k` is the first one refused. */
  predicate PrimeraInvalida(lineas: seq<PyValor>, k: int)
  {
    && 0 <= k < |lineas|
    && !LineaIngresoValida(lineas[k])
    && forall j :: 0 <= j < k ==> LineaIngresoValida(lineas[j])
  }

  /** The loop over the lines: all valid, or what the first invalid one raises. */
  function ValidarLineasIngreso(lineas: seq<PyValor>, mensajesNumericos: bool): (r: Outcome<Excepcion>)
    ensures r == Pass <==> forall k :: 0 <= k < |lineas| ==> LineaIngresoValida(lineas[k])
    ensures r.Fail? ==> exists k :: PrimeraInvalida(lineas, k) && r == ValidarLineaIngreso(lineas[k], mensajesNumericos)
  {
    if lineas == [] then Pass
    else
      match ValidarLineaIngreso(lineas[0], mensajesNumericos)
      case Fail(e) =>
        assert PrimeraInvalida(lineas, 0);
        Fail(e)
      case Pass =>
        var resto := ValidarLineasIngreso(lineas[1..], mensajesNumericos);
        assert forall k :: 1 <= k < |lineas| ==> lineas[k] == lineas[1..][k - 1];
        if resto.Fail? then
          var k :| PrimeraInvalida(lineas[1..], k) && resto == ValidarLineaIngreso(lineas[1..][k], mensajesNumericos);
          assert PrimeraInvalida(lineas, k + 1);
          resto
        else resto
  }

  /**
   * `validar_crear_ingreso(datos)` as written: the lines default to an
   * empty list, must be a list, and each must pass.
   */
  function ValidarCrearIngreso(datos: map<string, PyValor>): (r: Outcome<Excepcion>)
    ensures "lineas" !in datos ==> r == Pass
    ensures "lineas" in datos && !datos["lineas"].PyLista? ==> r == Fail(ValidationError(MENSAJE_LINEAS))
    ensures "lineas" in datos && datos["lineas"].PyLista? ==> r == ValidarLineasIngreso(datos["lineas"].elementos, false)
  {
    if "lineas" !in datos then Pass
    else
      match datos["lineas"]
      case PyLista(lineas) => ValidarLineasIngreso(lineas, false)
      case _ => Fail(ValidationError(MENSAJE_LINEAS))
  }

  /** The validator with a non-numeric quantity or price reported by its message. */
  function ValidarCrearIngresoCorregido(datos: map<string, PyValor>): (r: Outcome<Excepcion>)
    ensures "lineas" !in datos ==> r == Pass
    ensures "lineas" in datos && !datos["lineas"].PyLista? ==> r == Fail(ValidationError(MENSAJE_LINEAS))
    ensures "lineas" in datos && datos["lineas"].PyLista? ==> r == ValidarLineasIngreso(datos["lineas"].elementos, true)
  {
    if "lineas" !in datos then Pass
    else
      match datos["lineas"]
      case PyLista(lineas) => ValidarLineasIngreso(lineas, true)
      case _ => Fail(ValidationError(MENSAJE_LINEAS))
  }

  /** As written, the two "valor numérico" messages are never produced. */
  lemma MensajesNumericosInalcanzables(datos: map<string, PyValor>)
    ensures ValidarCrearIngreso(datos) != Fail(ValidationError(MENSAJE_CANTIDAD_NUMERICA))
    ensures ValidarCrearIngreso(datos) != Fail(ValidationError(MENSAJE_PRECIO_NUMERICO))
  {
    if "lineas" in datos && datos["lineas"].PyLista? {
      var r := ValidarLineasIngreso(datos["lineas"].elementos, false);
      if r.Fail? {
        var k :| PrimeraInvalida(datos["lineas"].elementos, k) && r == ValidarLineaIngreso(datos["lineas"].elementos[k], false);
      }
    }
  }

  /**
   * Both readings accept the same requests; they differ only in what a
   * refused request raises. A line with product 1 and quantity "x" raises
   * ValueError as written and gets the quantity message as intended.
   */
  lemma CantidadNoNumerica()
    ensures var linea := PyDicc(map["producto" := PyDicc(map["id" := PyInt(1)]), "cantidad" := PyStr("x")]);
            var datos := map["lineas" := PyLista([linea])];
            ValidarCrearIngreso(datos) == Fail(ValueError)
            && ValidarCrearIngresoCorregido(datos) == Fail(ValidationError(MENSAJE_CANTIDAD_NUMERICA))
  {
    var linea := PyDicc(map["producto" := PyDicc(map["id" := PyInt(1)]), "cantidad" := PyStr("x")]);
    assert "x"[0] == 'x' && !EsDigito('x');
    assert !EsNumerico("x");
    assert TextoAEntero("x") == None;
    assert ValidarLineaIngreso(linea, false) == Fail(ValueError);
    assert [linea][1..] == [];
  }

  /**
   * A float converts by truncation: a line with quantity 1.5 and price
   * 2.0 is valid, the key 2.0 finds product 2, and quantity 0.5 makes no
   * line because `int(0.5)` is 0.
   */
  lemma CantidadFlotante(productos: map<int, Producto>)
    requires 2 in productos && productos[2].compraDirecta
    ensures ValidarLineaIngreso(PyDicc(map["producto" := PyDicc(map["id" := PyInt(2)]),
                                           "cantidad" := PyFloat(1.5), "precio" := PyFloat(2.0)]), false) == Pass
    ensures BuscarProducto(PyFloat(2.0), productos) == Ok(Some((2, productos[2])))
    ensures LineaIngreso(PyDicc(map["producto" := PyDicc(map["id" := PyFloat(2.0)]), "cantidad" := PyFloat(0.5)]), productos) == Ok(None)
  {
    assert Truncar(2.0) == 2;
    assert Truncar(0.5) == 0;
  }

  lemma MismasAceptadas(datos: map<string, PyValor>)
    ensures ValidarCrearIngreso(datos) == Pass <==> ValidarCrearIngresoCorregido(datos) == Pass
  {
  }

  // ---------------------------------------------------------------------
  // crear_ingreso and crear_linea_ingreso

  /** A saved `IngresoLinea`: product, quantity, and the price as the request gave it. */
  datatype IngresoLinea = IngresoLinea(producto: int, cantidad: int, precio: PyValor)

  /**
   * The product a request value names: `get_producto(v)`, `None` when
   * missing. A `None` key is the lookup `pk IS NULL`, which finds nothing;
   * any other key is converted as the integer primary key.
   */
  function BuscarProducto(v: PyValor, productos: map<int, Producto>): (r: Result<Option<(int, Producto)>, Excepcion>)
    ensures v == PyNone ==> r == Ok(None)
    ensures r.Err? <==> v != PyNone && AEntero(v).Err?
    ensures r.Err? ==> r.error == AEntero(v).error
    ensures r.Ok? && r.value.Some? ==> v != PyNone && r.value.value.0 == AEntero(v).value && r.value.value.0 in productos
    ensures r.Ok? && r.value.Some? ==> r.value.value.1 == productos[r.value.value.0]
    ensures v != PyNone && AEntero(v).Ok? ==> r.Ok? && (r.value.None? <==> AEntero(v).value !in productos)
  {
    if v == PyNone then Ok(None)
    else
      match AEntero(v)
      case Err(e) => Err(e)
      case Ok(id) => if id in productos then Ok(Some((id, productos[id]))) else Ok(None)
  }

  /**
   * What `crear_linea_ingreso(ingreso, item)` does with one item: a
   * missing product raises, a product not bought directly raises naming
   * it, and only then is the quantity looked at. A zero quantity makes no
   * line (`None`); any other quantity makes exactly one, with the item's
   * price.
   */
  function LineaIngreso(item: PyValor, productos: map<int, Producto>): (r: Result<Option<IngresoLinea>, Excepcion>)
    ensures TieneIdProducto(item) && AEntero(IdProducto(item)).Ok? && AEntero(IdProducto(item)).value !in productos ==>
      r == Err(ValidationError(MENSAJE_PRODUCTO))
    ensures TieneIdProducto(item) && IdProducto(item) == PyNone ==> r == Err(ValidationError(MENSAJE_PRODUCTO))
    ensures (TieneIdProducto(item) && AEntero(IdProducto(item)).Ok? && AEntero(IdProducto(item)).value in productos
             && !productos[AEntero(IdProducto(item)).value].compraDirecta) ==>
      r == Err(ValidationError("El producto '" + productos[AEntero(IdProducto(item)).value].nombre + "' no es de compra directa."))
    ensures r.Ok? ==> TieneIdProducto(item) && AEntero(IdProducto(item)).Ok?
    ensures r.Ok? ==> AEntero(IdProducto(item)).value in productos && productos[AEntero(IdProducto(item)).value].compraDirecta
    ensures r.Ok? ==> "cantidad" in item.entradas && AEntero(item.entradas["cantidad"]).Ok?
    ensures r.Ok? ==> (r.value.None? <==> AEntero(item.entradas["cantidad"]).value == 0)
    ensures r.Ok? && r.value.Some? ==> "precio" in item.entradas
    ensures r.Ok? && r.value.Some? ==>
      r.value.value == IngresoLinea(AEntero(IdProducto(item)).value, AEntero(item.entradas["cantidad"]).value, item.entradas["precio"])
  {
    match Indexar(item, "producto")
    case Err(e) => Err(e)
    case Ok(p) =>
      match Indexar(p, "id")
      case Err(e) => Err(e)
      case Ok(idProducto) =>
        match BuscarProducto(idProducto, productos)
        case Err(e) => Err(e)
        case Ok(None) => Err(ValidationError(MENSAJE_PRODUCTO))
        case Ok(Some((id, producto))) =>
          if !producto.compraDirecta then
            Err(ValidationError("El producto '" + producto.nombre + "' no es de compra directa."))
          else
            match Indexar(item, "cantidad")
            case Err(e) => Err(e)
            case Ok(c) =>
              match AEntero(c)
              case Err(e) => Err(e)
              case Ok(cantidad) =>
                if cantidad == 0 then Ok(None)
                else
                  match Indexar(item, "precio")
                  case Err(e) => Err(e)
                  case Ok(precio) => Ok(Some(IngresoLinea(id, cantidad, precio)))
  }

  /** The lines the loop of `crear_ingreso` saves before it ends or raises, and how it ends. */
  function LineasIngreso(items: seq<PyValor>, productos: map<int, Producto>): (r: (seq<IngresoLinea>, Outcome<Excepcion>))
    ensures |r.0| <= |items|
    ensures forall k :: 0 <= k < |r.0| ==> r.0[k].cantidad != 0 && r.0[k].producto in productos
  {
    if items == [] then ([], Pass)
    else
      var previas := LineasIngreso(items[..|items| - 1], productos);
      if previas.1.Fail? then previas
      else
        match LineaIngreso(items[|items| - 1], productos)
        case Err(e) => (previas.0, Fail(e))
        case Ok(None) => previas
        case Ok(Some(l)) => (previas.0 + [l], Pass)
  }

  /** Adding one more item to the loop: its line, if any, goes after the others. */
  lemma LineasIngresoPaso(items: seq<PyValor>, productos: map<int, Producto>, i: nat)
    requires i < |items|
    ensures var antes := LineasIngreso(items[..i], productos);
            var despues := LineasIngreso(items[..i + 1], productos);
            antes.1.Pass? ==> match LineaIngreso(items[i], productos)
                              case Err(e) => despues == (antes.0, Fail(e))
                              case Ok(None) => despues == antes
                              case Ok(Some(l)) => despues == (antes.0 + [l], Pass)
  {
    assert items[..i + 1][..i] == items[..i];
  }

  /**
   * A stock receipt. Its lines are the ones saved for it; `actualizar_total`
   * belongs to the `Ingreso` model, which is not part of this model, and
   * `totalActualizado` records that it was called.
   */
  class Ingreso {
    var usuario: Usuario
    var lineas: seq<IngresoLinea>
    var totalActualizado: bool

    constructor (usuario: Usuario)
      ensures this.usuario == usuario && lineas == [] && !totalActualizado
    {
      this.usuario := usuario;
      lineas := [];
      totalActualizado := false;
    }

    /** `crear_linea_ingreso(self, item)`: the line `LineaIngreso` decides on, if any, is saved. */
    method CrearLineaIngreso(item: PyValor, productos: map<int, Producto>) returns (r: Result<Option<IngresoLinea>, Excepcion>)
      modifies this`lineas
      ensures r == LineaIngreso(item, productos)
      ensures r.Ok? && r.value.Some? ==> lineas == old(lineas) + [r.value.value]
      ensures r.Err? || r.value.None? ==> lineas == old(lineas)
    {
      r := LineaIngreso(item, productos);
      if r.Ok? && r.value.Some? {
        lineas := lineas + [r.value.value];
      }
    }
  }

  /**
   * `crear_ingreso(usuario, lineas)`: the receipt is saved first, then one
   * line at most per item, in order; the first item that raises ends the
   * call, leaving the receipt and the lines saved before it. Only a call
   * that gets through every item updates the total.
   */
  method CrearIngreso(usuario: Usuario, items: seq<PyValor>, productos: map<int, Producto>) returns (ingreso: Ingreso, r: Outcome<Excepcion>)
    ensures fresh(ingreso) && ingreso.usuario == usuario
    ensures (ingreso.lineas, r) == LineasIngreso(items, productos)
    ensures |ingreso.lineas| <= |items|
    ensures ingreso.totalActualizado <==> r.Pass?
  {
    ingreso := new Ingreso(usuario);
    var i := 0;
    while i < |items|
      invariant 0 <= i <= |items|
      invariant LineasIngreso(items[..i], productos) == (ingreso.lineas, Pass)
      invariant ingreso.usuario == usuario && !ingreso.totalActualizado
    {
      LineasIngresoPaso(items, productos, i);
      var linea := ingreso.CrearLineaIngreso(items[i], productos);
      if linea.Err? {
        PrefijoFallido(items, productos, i + 1);
        return ingreso, Fail(linea.error);
      }
      i := i + 1;
    }
    assert items[..i] == items;
    ingreso.totalActualizado := true;
    return ingreso, Pass;
  }

  /** Once the loop has raised, later items change nothing. */
  lemma {:induction false} PrefijoFallido(items: seq<PyValor>, productos: map<int, Producto>, i: nat)
    requires i <= |items| && LineasIngreso(items[..i], productos).1.Fail?
    ensures LineasIngreso(items, productos) == LineasIngreso(items[..i], productos)
    decreases |items| - i
  {
    if i < |items| {
      assert items[..i + 1][..i] == items[..i];
      PrefijoFallido(items, productos, i + 1);
    } else {
      assert items[..i] == items;
    }
  }
}
