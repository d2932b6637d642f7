/**
 * The order repository of gastronomia/repositorio.py: looking an order up,
 * validating the request that creates one, and creating the order with
 * its lines. Requests arrive as `PyValor` dictionaries; the saved orders
 * are the table `Pedidos`.
 */
module GastronomiaRepositorio {
  import opened Comun
  import opened Inventario
  import opened Usuarios
  import G = Gastronomia

  const MENSAJE_DATOS := "El pedido no tiene los datos suficientes para ser guardado."
  const MENSAJE_LINEAS := "Debe seleccionar al menos un producto."
  const MENSAJE_PRODUCTO := "No se ha encontrado el producto."
  const MENSAJE_CANTIDAD := "La cantidad del producto debe ser mayor a cero."
  const MENSAJE_PEDIDO := "No se ha encontrado el pedido."

  // ---------------------------------------------------------------------
  // validar_crear_pedido

  /** A number greater than zero, as Python compares it (`True` counts as 1, a float as itself). */
  predicate Positivo(v: PyValor)
  {
    ComoNumero(v).Some? && ComoNumero(v).value > 0.0
  }

  /** A number that is zero or less. */
  predicate NoPositivo(v: PyValor)
  {
    ComoNumero(v).Some? && ComoNumero(v).value <= 0.0
  }

  /** A line the validator lets through: a dictionary with a positive product id and quantity. */
  predicate LineaPedidoValida(l: PyValor)
  {
    && l.PyDicc?
    && "producto_id" in l.entradas && Positivo(l.entradas["producto_id"])
    && "cantidad" in l.entradas && Positivo(l.entradas["cantidad"])
  }

  /** `l[clave] if clave in l else 0`. */
  function CampoOCero(l: PyValor, clave: string): Result<PyValor, Excepcion>
  {
    match Pertenece(clave, l)
    case Err(e) => Err(e)
    case Ok(esta) => if esta then Indexar(l, clave) else Ok(PyInt(0))
  }

  /**
   * One pass of the loop over the lines: the product id, then the
   * quantity, each read with 0 as default and compared with 0. A missing
   * or non-positive product id and a missing or non-positive quantity are
   * reported with their message; anything else that is not a dictionary
   * of two positive numbers raises.
   */
  function ValidarLineaPedido(l: PyValor): (r: Outcome<Excepcion>)
    ensures r == Pass <==> LineaPedidoValida(l)
    ensures l.PyDicc? && ("producto_id" !in l.entradas || NoPositivo(l.entradas["producto_id"])) ==>
      r == Fail(ValidationError(MENSAJE_PRODUCTO))
    ensures (l.PyDicc? && "producto_id" in l.entradas && Positivo(l.entradas["producto_id"])
             && ("cantidad" !in l.entradas || NoPositivo(l.entradas["cantidad"]))) ==>
      r == Fail(ValidationError(MENSAJE_CANTIDAD))
    ensures r.Fail? && r.error.ValidationError? ==> r.error.mensaje in {MENSAJE_PRODUCTO, MENSAJE_CANTIDAD}
  {
    match CampoOCero(l, "producto_id")
    case Err(e) => Fail(e)
    case Ok(idProducto) =>
      match MenorIgualCero(idProducto)
      case Err(e) => Fail(e)
      case Ok(true) => Fail(ValidationError(MENSAJE_PRODUCTO))
      case Ok(false) =>
        match CampoOCero(l, "cantidad")
        case Err(e) => Fail(e)
        case Ok(cantidad) =>
          match MenorIgualCero(cantidad)
          case Err(e) => Fail(e)
          case Ok(true) => Fail(ValidationError(MENSAJE_CANTIDAD))
          case Ok(false) => Pass
  }

  /** Line `k` is the first one the validator refuses. */
  predicate PrimeraInvalida(lineas: seq<PyValor>, k: int)
  {
    && 0 <= k < |lineas|
    && !LineaPedidoValida(lineas[k])
    && forall j :: 0 <= j < k ==> LineaPedidoValida(lineas[j])
  }

  /**
   * The loop over the lines: it passes exactly when every line is valid,
   * and otherwise raises what the first invalid line raises.
   */
  function ValidarLineasPedido(lineas: seq<PyValor>): (r: Outcome<Excepcion>)
    ensures r == Pass <==> forall k :: 0 <= k < |lineas| ==> LineaPedidoValida(lineas[k])
    ensures r.Fail? ==> exists k :: PrimeraInvalida(lineas, k) && r == ValidarLineaPedido(lineas[k])
  {
    if lineas == [] then Pass
    else
      match ValidarLineaPedido(lineas[0])
      case Fail(e) =>
        assert PrimeraInvalida(lineas, 0);
        Fail(e)
      case Pass =>
        var resto := ValidarLineasPedido(lineas[1..]);
        assert forall k :: 1 <= k < |lineas| ==> lineas[k] == lineas[1..][k - 1];
        if resto.Fail? then
          var k :| PrimeraInvalida(lineas[1..], k) && resto == ValidarLineaPedido(lineas[1..][k]);
          assert PrimeraInvalida(lineas, k + 1);
          resto
        else resto
  }

  /** `lineas = datos["lineas"] if "lineas" in datos else list()` and the checks on it. */
  function ValidarLineas(datos: map<string, PyValor>): (r: Outcome<Excepcion>)
    ensures "lineas" !in datos ==> r == Pass
    ensures "lineas" in datos && !datos["lineas"].PyLista? ==> r == Fail(ValidationError(MENSAJE_LINEAS))
    ensures "lineas" in datos && datos["lineas"].PyLista? ==> r == ValidarLineasPedido(datos["lineas"].elementos)
  {
    if "lineas" !in datos then Pass
    else
      match datos["lineas"]
      case PyLista(lineas) => ValidarLineasPedido(lineas)
      case _ => Fail(ValidationError(MENSAJE_LINEAS))
  }

  /** The lines part of the request is acceptable: absent, or a list of valid lines. */
  predicate LineasAceptadas(datos: map<string, PyValor>)
  {
    "lineas" !in datos
    || (datos["lineas"].PyLista? && forall k :: 0 <= k < |datos["lineas"].elementos| ==> LineaPedidoValida(datos["lineas"].elementos[k]))
  }

  /**
   * `validar_crear_pedido(datos)` as written. The id test converts
   * `datos["id"] < 0` to an integer instead of comparing `int(datos["id"])`
   * with 0, so the comparison runs on the raw value: an integer id below
   * zero is refused, and any text id raises, even a numeric one.
   */
  function ValidarCrearPedido(datos: map<string, PyValor>): (r: Outcome<Excepcion>)
    ensures "id" !in datos ==> r == Fail(KeyError)
    ensures "id" in datos && NoPositivo(datos["id"]) && ComoNumero(datos["id"]).value < 0.0 ==>
      r == Fail(ValidationError(MENSAJE_DATOS))
    ensures "id" in datos && datos["id"].PyStr? ==> r.Fail? && !r.error.ValidationError?
    ensures r == Pass <==> "id" in datos && ComoNumero(datos["id"]).Some? && ComoNumero(datos["id"]).value >= 0.0 && LineasAceptadas(datos)
    ensures "id" in datos && ComoNumero(datos["id"]).Some? && ComoNumero(datos["id"]).value >= 0.0 ==> r == ValidarLineas(datos)
  {
    if "id" !in datos then Fail(KeyError)
    else
      var id := datos["id"];
      match AEntero(id)
      case Err(e) => Fail(e)
      case Ok(_) =>
        match MenorQueCero(id)
        case Err(e) => Fail(e)
        case Ok(negativo) => if negativo then Fail(ValidationError(MENSAJE_DATOS)) else ValidarLineas(datos)
  }

  /**
   * The id test as evidently intended, `int(datos["id"]) < 0`: the id is
   * converted first and the number compared, so a numeric text id is
   * treated like the number it denotes.
   */
  function ValidarCrearPedidoCorregido(datos: map<string, PyValor>): (r: Outcome<Excepcion>)
    ensures "id" !in datos ==> r == Fail(KeyError)
    ensures "id" in datos && AEntero(datos["id"]).Ok? && AEntero(datos["id"]).value < 0 ==>
      r == Fail(ValidationError(MENSAJE_DATOS))
    ensures "id" in datos && AEntero(datos["id"]).Ok? && AEntero(datos["id"]).value >= 0 ==> r == ValidarLineas(datos)
    ensures "id" in datos && AEntero(datos["id"]).Err? ==> r == Fail(AEntero(datos["id"]).error)
  {
    if "id" !in datos then Fail(KeyError)
    else
      match AEntero(datos["id"])
      case Err(e) => Fail(e)
      case Ok(n) => if n < 0 then Fail(ValidationError(MENSAJE_DATOS)) else ValidarLineas(datos)
  }

  /**
   * The two readings differ on text ids: a request `{"id": "7"}`
   * raises as written and passes as intended, and `{"id": "-3"}` raises
   * TypeError instead of being refused with the validation message.
   */
  lemma IdTextoRechazado()
    ensures ValidarCrearPedido(map["id" := PyStr("7")]) == Fail(TypeError)
    ensures ValidarCrearPedidoCorregido(map["id" := PyStr("7")]) == Pass
    ensures ValidarCrearPedido(map["id" := PyStr("-3")]) == Fail(TypeError)
    ensures ValidarCrearPedidoCorregido(map["id" := PyStr("-3")]) == Fail(ValidationError(MENSAJE_DATOS))
  {
    assert EsNumerico("7") && ValorDigitos("7") == 7 by {
      assert "7"[..0] == [];
    }
    assert TextoAEntero("7") == Some(7);
    var d := "-3";
    assert d[1..] == "3";
    assert EsNumerico("3") && ValorDigitos("3") == 3 by {
      assert "3"[..0] == [];
    }
    assert !EsNumerico(d) by {
      assert !EsDigito(d[0]);
    }
    assert TextoAEntero(d) == Some(-3);
  }

  /**
   * Floats pass through both comparisons as Python makes them: a line with
   * quantity 1.5 is valid, and the id 2.0 is accepted by both readings. A
   * float id strictly between -1 and 0 is where the readings part: as
   * written `-0.5 < 0` refuses it, while `int(-0.5)` is 0 and passes.
   */
  lemma IdFlotante()
    ensures ValidarLineaPedido(PyDicc(map["producto_id" := PyInt(1), "cantidad" := PyFloat(1.5)])) == Pass
    ensures ValidarCrearPedido(map["id" := PyFloat(2.0)]) == Pass
    ensures ValidarCrearPedidoCorregido(map["id" := PyFloat(2.0)]) == Pass
    ensures ValidarCrearPedido(map["id" := PyFloat(-0.5)]) == Fail(ValidationError(MENSAJE_DATOS))
    ensures ValidarCrearPedidoCorregido(map["id" := PyFloat(-0.5)]) == Pass
  {
    assert Truncar(-0.5) == 0;
  }

  /** On an integer or boolean id, both readings decide alike. */
  lemma CorregidoCoincideConNumeros(datos: map<string, PyValor>)
    requires "id" in datos && ComoEntero(datos["id"]).Some?
    ensures ValidarCrearPedido(datos) == ValidarCrearPedidoCorregido(datos)
  {
  }

  // ---------------------------------------------------------------------
  // get_pedido

  /** The saved orders with primary key `pk`. */
  function ConId(tabla: seq<G.Pedido>, pk: int): (r: seq<G.Pedido>)
    ensures forall i :: 0 <= i < |r| ==> r[i] in tabla && r[i].id == pk
    ensures forall i :: 0 <= i < |tabla| && tabla[i].id == pk ==> tabla[i] in r
    ensures (forall i :: 0 <= i < |tabla| ==> tabla[i].id != pk) ==> r == []
    ensures IdsUnicos(tabla) ==> |r| <= 1
  {
    if tabla == [] then []
    else
      var previos := ConId(tabla[..|tabla| - 1], pk);
      var ultimo := tabla[|tabla| - 1];
      assert IdsUnicos(tabla) ==> IdsUnicos(tabla[..|tabla| - 1]);
      if ultimo.id == pk then
        var previas := tabla[..|tabla| - 1];
        assert IdsUnicos(tabla) ==> forall i :: 0 <= i < |previas| ==> previas[i].id != pk;
        previos + [ultimo]
      else previos
  }

  /** The saved orders of `usuario` whose last state is `estado`. */
  function ConEstado(tabla: seq<G.Pedido>, usuario: Usuario, estado: string): (r: seq<G.Pedido>)
    reads tabla
    ensures forall i :: 0 <= i < |r| ==> r[i] in tabla && r[i].usuario == usuario && r[i].ultimoEstado == estado
    ensures forall i :: 0 <= i < |tabla| && tabla[i].usuario == usuario && tabla[i].ultimoEstado == estado ==> tabla[i] in r
    ensures |r| <= |tabla|
  {
    if tabla == [] then []
    else
      var ultimo := tabla[|tabla| - 1];
      ConEstado(tabla[..|tabla| - 1], usuario, estado)
      + (if ultimo.usuario == usuario && ultimo.ultimoEstado == estado then [ultimo] else [])
  }

  /** `objects.get(...)` on the matches: none, exactly one, or it raises. */
  function Unico(s: seq<G.Pedido>): Result<Option<G.Pedido>, Excepcion>
  {
    if s == [] then Ok(None)
    else if |s| == 1 then Ok(Some(s[0]))
    else Err(MultipleObjectsReturned)
  }

  /** No two saved orders share a primary key. */
  predicate IdsUnicos(tabla: seq<G.Pedido>)
  {
    forall i, j :: 0 <= i < j < |tabla| ==> tabla[i].id != tabla[j].id
  }

  /**
   * `get_pedido(pk, usuario, estado)`: by primary key when one is given,
   * otherwise by owner and last state when both are given, otherwise
   * nothing. A missing order is `None`; several orders of the same owner
   * in the same state make the lookup raise. Orders are found by key only
   * when that key exists, and since keys are unique that lookup never
   * raises.
   */
  function GetPedido(tabla: seq<G.Pedido>, pk: Option<int>, usuario: Usuario?, estado: Option<string>): (r: Result<Option<G.Pedido>, Excepcion>)
    reads tabla
    ensures pk.Some? ==> (r == Ok(None) <==> forall i :: 0 <= i < |tabla| ==> tabla[i].id != pk.value)
    ensures pk.Some? && r.Ok? && r.value.Some? ==> r.value.value in tabla && r.value.value.id == pk.value
    ensures pk.Some? && IdsUnicos(tabla) ==> r.Ok?
    ensures pk.None? && (usuario == null || estado.None?) ==> r == Ok(None)
    ensures pk.None? && usuario != null && estado.Some? ==>
      (r == Ok(None) <==> forall i :: 0 <= i < |tabla| ==> tabla[i].usuario != usuario || tabla[i].ultimoEstado != estado.value)
    ensures pk.None? && r.Ok? && r.value.Some? ==>
      r.value.value in tabla && r.value.value.usuario == usuario && estado == Some(r.value.value.ultimoEstado)
    ensures r.Err? ==> r == Err(MultipleObjectsReturned)
  {
    if pk.Some? then
      var s := ConId(tabla, pk.value);
      assert s != [] ==> s[0] in s;
      Unico(s)
    else if usuario != null && estado.Some? then
      var s := ConEstado(tabla, usuario, estado.value);
      assert s != [] ==> s[0] in s;
      Unico(s)
    else Ok(None)
  }

  // ---------------------------------------------------------------------
  // crear_pedido and crear_linea_pedido

  /** A requested line once validated: product id and quantity. */
  datatype ItemPedido = ItemPedido(producto: int, cantidad: int)

  /**
   * A `PedidoLinea` built but not saved yet. Its unit price and total are
   * unset (`None`) until `actualizar_total` fills them; the table declares
   * both columns NOT NULL.
   */
  datatype LineaSinGuardar = LineaSinGuardar(producto: int, cantidad: int, subtotal: Option<int>, total: Option<int>)

  /** `crear_linea_pedido(pedido, item)` as written: product and quantity only. */
  function CrearLineaPedido(item: ItemPedido, productos: map<int, Producto>): (r: Result<LineaSinGuardar, Excepcion>)
    ensures item.producto !in productos <==> r == Err(Exception(MENSAJE_PRODUCTO))
    ensures r.Ok? ==> r.value.producto == item.producto && r.value.cantidad == item.cantidad
    ensures r.Ok? ==> r.value.subtotal.None? && r.value.total.None?
  {
    if item.producto !in productos then Err(Exception(MENSAJE_PRODUCTO))
    else Ok(LineaSinGuardar(item.producto, item.cantidad, None, None))
  }

  /**
   * The line as evidently intended: its totals are computed from the
   * product's current price, as `PedidoLinea.actualizar_total` does,
   * before it is saved.
   */
  function CrearLineaPedidoCorregida(item: ItemPedido, productos: map<int, Producto>): (r: Result<LineaSinGuardar, Excepcion>)
    ensures item.producto !in productos <==> r == Err(Exception(MENSAJE_PRODUCTO))
    ensures r.Ok? ==> r.value.producto == item.producto && r.value.cantidad == item.cantidad
    ensures r.Ok? ==> r.value.subtotal == Some(productos[item.producto].precioVigente)
    ensures r.Ok? ==> r.value.total == Some(productos[item.producto].precioVigente * item.cantidad)
  {
    if item.producto !in productos then Err(Exception(MENSAJE_PRODUCTO))
    else
      var precio := productos[item.producto].precioVigente;
      Ok(LineaSinGuardar(item.producto, item.cantidad, Some(precio), Some(precio * item.cantidad)))
  }

  /** The saved lines the corrected creation appends for `items`, numbered from `desde`. */
  function LineasGuardadas(items: seq<ItemPedido>, productos: map<int, Producto>, desde: nat): (r: seq<G.PedidoLinea>)
    requires forall k :: 0 <= k < |items| ==> items[k].producto in productos
    ensures |r| == |items|
    ensures forall k :: 0 <= k < |items| ==>
      r[k] == G.PedidoLinea(desde + k, items[k].producto, items[k].cantidad,
                            productos[items[k].producto].precioVigente,
                            productos[items[k].producto].precioVigente * items[k].cantidad)
  {
    if items == [] then []
    else
      var n := |items| - 1;
      var precio := productos[items[n].producto].precioVigente;
      LineasGuardadas(items[..n], productos, desde) + [G.PedidoLinea(desde + n, items[n].producto, items[n].cantidad, precio, precio * items[n].cantidad)]
  }

  /** Every item names a product of the catalogue. */
  predicate ProductosExisten(items: seq<ItemPedido>, productos: map<int, Producto>)
  {
    forall k :: 0 <= k < |items| ==> items[k].producto in productos
  }

  /**
   * `Pedido.objects`: the saved orders, and the next primary keys the
   * database hands out to orders and to order lines.
   */
  class Pedidos {
    var tabla: seq<G.Pedido>
    var proximoId: nat
    var proximoIdLinea: nat

    /** Keys are positive, unique, and below the next key to hand out. */
    ghost predicate Valid()
      reads this`tabla, this`proximoId
    {
      && proximoId > 0
      && IdsUnicos(tabla)
      && forall i :: 0 <= i < |tabla| ==> 0 < tabla[i].id < proximoId
    }

    constructor ()
      ensures Valid() && tabla == [] && proximoId == 1
    {
      tabla := [];
      proximoId := 1;
      proximoIdLinea := 1;
    }

    /**
     * The first part of `crear_pedido`: with `id <= 0` a new open order of
     * `usuario` with total 0 is saved; with `id > 0` the saved order with
     * that key is taken, and its absence raises.
     */
    method ObtenerPedido(usuario: Usuario, id: int) returns (r: Result<G.Pedido, Excepcion>)
      requires Valid()
      modifies this`tabla, this`proximoId
      ensures Valid()
      ensures id <= 0 ==> r.Ok? && fresh(r.value) && tabla == old(tabla) + [r.value] && proximoId == old(proximoId) + 1
      ensures id <= 0 ==> r.value.id == old(proximoId) && r.value.usuario == usuario
      ensures id <= 0 ==> r.value.ultimoEstado == G.ABIERTO && r.value.total == 0 && r.value.lineas == [] && r.value.estados == []
      ensures id > 0 ==> tabla == old(tabla) && proximoId == old(proximoId)
      ensures id > 0 ==> (r.Ok? <==> Existe(tabla, id))
      ensures id > 0 && r.Ok? ==> r.value in tabla && r.value.id == id
      ensures r.Err? ==> r == Err(ValidationError(MENSAJE_PEDIDO))
    {
      if id > 0 {
        var encontrado := GetPedido(tabla, Some(id), null, None);
        if encontrado.value.None? {
          return Err(ValidationError(MENSAJE_PEDIDO));
        }
        return Ok(encontrado.value.value);
      }
      var pedido := new G.Pedido(proximoId, usuario);
      tabla := tabla + [pedido];
      proximoId := proximoId + 1;
      return Ok(pedido);
    }

    /**
     * `linea.save()`: a line whose totals are unset violates the NOT NULL
     * columns and raises; any other one is appended to the order under a
     * fresh key.
     */
    method GuardarLinea(pedido: G.Pedido, l: LineaSinGuardar) returns (r: Outcome<Excepcion>)
      modifies pedido`lineas, this`proximoIdLinea
      ensures l.subtotal.None? || l.total.None? <==> r.Fail?
      ensures r.Fail? ==> r == Fail(IntegrityError)
      ensures r.Fail? ==> pedido.lineas == old(pedido.lineas) && proximoIdLinea == old(proximoIdLinea)
      ensures r.Pass? ==> proximoIdLinea == old(proximoIdLinea) + 1
      ensures r.Pass? ==> pedido.lineas == old(pedido.lineas) + [G.PedidoLinea(old(proximoIdLinea), l.producto, l.cantidad, l.subtotal.value, l.total.value)]
    {
      if l.subtotal.None? || l.total.None? {
        return Fail(IntegrityError);
      }
      pedido.lineas := pedido.lineas + [G.PedidoLinea(proximoIdLinea, l.producto, l.cantidad, l.subtotal.value, l.total.value)];
      proximoIdLinea := proximoIdLinea + 1;
      return Pass;
    }

    /**
     * The loop of `crear_pedido`: each item is built into a line and saved,
     * in order. As written (`calcularTotales` false) the built line has no
     * totals, so the first item raises, naming a missing product or failing
     * on save, and no line is added. With the totals computed before the
     * save, one line per item is added, up to the first item whose product
     * is missing, which raises.
     */
    method GuardarLineas(pedido: G.Pedido, items: seq<ItemPedido>, cat: Catalogo, calcularTotales: bool) returns (r: Outcome<Excepcion>)
      modifies pedido`lineas, this`proximoIdLinea
      ensures !calcularTotales ==> pedido.lineas == old(pedido.lineas) && (r.Pass? <==> items == [])
      ensures !calcularTotales && items != [] ==>
        r == Fail(if items[0].producto in cat.productos then IntegrityError else Exception(MENSAJE_PRODUCTO))
      ensures calcularTotales ==>
        pedido.lineas == old(pedido.lineas) + LineasCreadas(items, cat.productos, old(proximoIdLinea))
      ensures calcularTotales ==> (r.Pass? <==> ProductosExisten(items, cat.productos))
      ensures calcularTotales && r.Fail? ==> r == Fail(Exception(MENSAJE_PRODUCTO))
    {
      ghost var lineas0 := pedido.lineas;
      ghost var desde := proximoIdLinea;
      var i := 0;
      while i < |items|
        invariant 0 <= i <= |items| && ProductosExisten(items[..i], cat.productos)
        invariant pedido.lineas == lineas0 + LineasGuardadas(items[..i], cat.productos, desde)
        invariant proximoIdLinea == desde + i
        invariant !calcularTotales ==> i == 0
      {
        var linea := if calcularTotales then CrearLineaPedidoCorregida(items[i], cat.productos)
                     else CrearLineaPedido(items[i], cat.productos);
        if linea.Err? {
          PrimerFaltanteEs(items, cat.productos, i);
          return Fail(linea.error);
        }
        var guardada := GuardarLinea(pedido, linea.value);
        if guardada.Fail? {
          return Fail(guardada.error);
        }
        assert items[..i + 1][..i] == items[..i];
        assert LineasGuardadas(items[..i + 1], cat.productos, desde)
            == LineasGuardadas(items[..i], cat.productos, desde)
               + [G.PedidoLinea(desde + i, items[i].producto, items[i].cantidad, linea.value.subtotal.value, linea.value.total.value)];
        i := i + 1;
      }
      assert items[..i] == items;
      PrimerFaltanteEs(items, cat.productos, i);
      return Pass;
    }

    /**
     * `crear_pedido(usuario, id, lineas)` as written. The order is
     * obtained and saved, then the lines are built and saved; since the
     * built lines never get their totals, a request with lines never
     * returns an order and never adds a line to any order.
     */
    method CrearPedido(usuario: Usuario, id: int, items: seq<ItemPedido>, cat: Catalogo) returns (r: Result<G.Pedido, Excepcion>)
      requires Valid()
      modifies this`tabla, this`proximoId, this`proximoIdLinea, tabla`lineas
      ensures Valid()
      ensures id <= 0 ==> |tabla| == |old(tabla)| + 1 && tabla[..|old(tabla)|] == old(tabla)
      ensures id <= 0 ==> fresh(tabla[|old(tabla)|]) && tabla[|old(tabla)|].lineas == []
      ensures id > 0 ==> tabla == old(tabla)
      ensures forall p :: p in old(tabla) ==> p.lineas == old(p.lineas)
      ensures !Existe(old(tabla), id) ==> r == Err(ValidationError(MENSAJE_PEDIDO))
      ensures Existe(old(tabla), id) ==> (r.Ok? <==> items == [])
      ensures Existe(old(tabla), id) && items != [] ==>
        r == Err(if items[0].producto in cat.productos then IntegrityError else Exception(MENSAJE_PRODUCTO))
      ensures r.Ok? ==> r.value in tabla && r.value.id > 0 && (id > 0 ==> r.value.id == id)
    {
      var obtenido := ObtenerPedido(usuario, id);
      if obtenido.Err? {
        return Err(obtenido.error);
      }
      var pedido: G.Pedido := obtenido.value;
      var guardadas := GuardarLineas(pedido, items, cat, false);
      if guardadas.Fail? {
        return Err(guardadas.error);
      }
      return Ok(pedido);
    }

    /**
     * `crear_pedido` with each line's totals computed before it is saved:
     * the order gets one line per item, in order, priced at the current
     * price, until the first item whose product is missing; that item
     * raises and the lines saved before it stay.
     */
    method CrearPedidoCorregido(usuario: Usuario, id: int, items: seq<ItemPedido>, cat: Catalogo) returns (r: Result<G.Pedido, Excepcion>)
      requires Valid()
      modifies this`tabla, this`proximoId, this`proximoIdLinea, tabla`lineas
      ensures Valid()
      ensures id <= 0 ==> |tabla| == |old(tabla)| + 1 && tabla[..|old(tabla)|] == old(tabla) && fresh(tabla[|old(tabla)|])
      ensures id <= 0 ==> tabla[|old(tabla)|].lineas == LineasCreadas(items, cat.productos, old(proximoIdLinea))
      ensures id > 0 ==> tabla == old(tabla)
      ensures forall p :: p in old(tabla) && p.id != id ==> p.lineas == old(p.lineas)
      ensures forall p :: p in old(tabla) && p.id == id ==>
        p.lineas == old(p.lineas) + LineasCreadas(items, cat.productos, old(proximoIdLinea))
      ensures !Existe(old(tabla), id) ==> r == Err(ValidationError(MENSAJE_PEDIDO))
      ensures Existe(old(tabla), id) ==> (r.Ok? <==> ProductosExisten(items, cat.productos))
      ensures Existe(old(tabla), id) && r.Err? ==> r == Err(Exception(MENSAJE_PRODUCTO))
      ensures r.Ok? ==> r.value in tabla && r.value.id > 0 && (id > 0 ==> r.value.id == id)
    {
      var obtenido := ObtenerPedido(usuario, id);
      if obtenido.Err? {
        return Err(obtenido.error);
      }
      var pedido: G.Pedido := obtenido.value;
      ghost var nuevas := LineasCreadas(items, cat.productos, proximoIdLinea);
      assert forall p :: p in old(tabla) && p.id == id ==> p == pedido;
      assert forall p :: p in old(tabla) && p.id != id ==> p != pedido;
      ghost var antes := pedido.lineas;
      var guardadas := GuardarLineas(pedido, items, cat, true);
      assert pedido.lineas == antes + nuevas;
      if guardadas.Fail? {
        return Err(guardadas.error);
      }
      return Ok(pedido);
    }
  }

  /** Some saved order would be used: a new one is made, or the key exists. */
  predicate Existe(tabla: seq<G.Pedido>, id: int)
  {
    id <= 0 || exists i :: 0 <= i < |tabla| && tabla[i].id == id
  }

  /** The position of the first item whose product is missing, or the length. */
  function PrimerFaltante(items: seq<ItemPedido>, productos: map<int, Producto>): (k: nat)
    ensures k <= |items| && ProductosExisten(items[..k], productos)
    ensures k < |items| ==> items[k].producto !in productos
  {
    if items == [] then 0
    else if items[0].producto !in productos then 0
    else
      var k := PrimerFaltante(items[1..], productos);
      assert items[..k + 1] == [items[0]] + items[1..][..k];
      k + 1
  }

  /** The lines the corrected creation saves: those of the items before the first missing product. */
  function LineasCreadas(items: seq<ItemPedido>, productos: map<int, Producto>, desde: nat): seq<G.PedidoLinea>
  {
    LineasGuardadas(items[..PrimerFaltante(items, productos)], productos, desde)
  }

  /** The first missing product is at `i` when all before `i` exist and `i` is the length or missing. */
  lemma PrimerFaltanteEs(items: seq<ItemPedido>, productos: map<int, Producto>, i: nat)
    requires i <= |items| && ProductosExisten(items[..i], productos)
    requires i < |items| ==> items[i].producto !in productos
    ensures PrimerFaltante(items, productos) == i
  {
  }
}
