/**
 * Customer orders and sales of gastronomia/models.py. `Pedido` and `Venta`
 * are classes whose fields the source updates in place; their lines and
 * state records are values held in the owner's sequence, so the
 * line-level methods of the source (`PedidoLinea.actualizar_stock`,
 * `VentaLinea.anular`, ...) are methods of the owner that take the line's
 * index. Every stock write goes through `Catalogo.ActualizarStock`.
 */
module Gastronomia {
  import opened Comun
  import opened Inventario
  import opened Usuarios

  // Order states.
  const ABIERTO := "abierto"
  const EN_CURSO := "en curso"
  const DISPONIBLE := "disponible"
  const RECIBIDO := "recibido"
  const ANULADO := "anulado"
  const ENTREGADO := "entregado"

  const ESTADOS: set<string> := {ABIERTO, EN_CURSO, DISPONIBLE, RECIBIDO, ANULADO, ENTREGADO}

  /** `Estado.comprobar_estado_valido`: exactly the six order states are valid. */
  function ComprobarEstadoValido(estado: string): (r: bool)
    ensures r <==> estado in ESTADOS
    ensures r ==> estado != ""
  {
    estado == ABIERTO || estado == EN_CURSO || estado == RECIBIDO || estado == ANULADO
    || estado == ENTREGADO || estado == DISPONIBLE
  }

  const TIPO_RETIRO := "retiro"
  const TIPO_DELIVERY := "delivery"

  // Sale types.
  const ALMACEN := "almacen"
  const ONLINE := "online"
  const MESA := "mesa"

  /** A row of the order's state history. */
  datatype Estado = Estado(estado: string, fecha: int)

  datatype PedidoLinea = PedidoLinea(id: nat, producto: int, cantidad: int, subtotal: int, total: int)

  datatype VentaLinea = VentaLinea(producto: int, cantidad: int, precio: int, total: int)

  /**
   * One entry of the previous line set the client echoes back when it edits
   * an order: `anterior["id"]`, `anterior["producto"]["id"]` and
   * `anterior["cantidad"]`. Id 0 marks a line that was never saved.
   */
  datatype LineaAnterior = LineaAnterior(id: int, producto: int, cantidad: int)

  // ---------------------------------------------------------------------
  // Sums over lines

  function SumaTotales(lineas: seq<PedidoLinea>): int
  {
    if lineas == [] then 0 else SumaTotales(lineas[..|lineas| - 1]) + lineas[|lineas| - 1].total
  }

  /** Replacing one line changes the order's sum by the change of that line. */
  lemma {:induction false} SumaTotalesReemplazo(lineas: seq<PedidoLinea>, i: nat, nueva: PedidoLinea)
    requires i < |lineas|
    ensures SumaTotales(lineas[i := nueva]) == SumaTotales(lineas) - lineas[i].total + nueva.total
    decreases |lineas|
  {
    var n := |lineas| - 1;
    var l2 := lineas[i := nueva];
    if i < n {
      assert l2[..n] == lineas[..n][i := nueva];
      SumaTotalesReemplazo(lineas[..n], i, nueva);
    } else {
      assert l2[..n] == lineas[..n];
    }
  }

  function SumaVenta(lineas: seq<VentaLinea>): int
  {
    if lineas == [] then 0 else SumaVenta(lineas[..|lineas| - 1]) + lineas[|lineas| - 1].total
  }

  /** Total quantity of product `p` over the lines of a sale. */
  function CantidadVendida(lineas: seq<VentaLinea>, p: int): int
  {
    if lineas == [] then 0
    else CantidadVendida(lineas[..|lineas| - 1], p)
         + (if lineas[|lineas| - 1].producto == p then lineas[|lineas| - 1].cantidad else 0)
  }

  /** The stock movements a sale's lines make, each lowering by the quantity. */
  function MovsVenta(lineas: seq<VentaLinea>, descripcion: Descripcion): seq<Movimiento>
  {
    if lineas == [] then []
    else
      var l := lineas[|lineas| - 1];
      MovsVenta(lineas[..|lineas| - 1], descripcion) + [Movimiento(l.producto, -l.cantidad, descripcion)]
  }

  lemma MovsVentaPaso(lineas: seq<VentaLinea>, i: nat, d: Descripcion)
    requires i < |lineas|
    ensures MovsVenta(lineas[..i + 1], d) == MovsVenta(lineas[..i], d) + [Movimiento(lineas[i].producto, -lineas[i].cantidad, d)]
  {
    assert lineas[..i + 1][..i] == lineas[..i];
  }

  /** The movements of a sale lower each product by the quantity sold. */
  lemma {:induction false} SumaMovsVenta(lineas: seq<VentaLinea>, descripcion: Descripcion, p: int)
    ensures SumaMovimientos(MovsVenta(lineas, descripcion), p) == -CantidadVendida(lineas, p)
    decreases |lineas|
  {
    if lineas != [] {
      var n := |lineas| - 1;
      var l := lineas[n];
      SumaMovsVenta(lineas[..n], descripcion, p);
      SumaMovimientosConcatenar(MovsVenta(lineas[..n], descripcion), [Movimiento(l.producto, -l.cantidad, descripcion)], p);
      assert SumaMovimientos([Movimiento(l.producto, -l.cantidad, descripcion)], p)
          == (if l.producto == p then -l.cantidad else 0);
    }
  }

  // ---------------------------------------------------------------------
  // The line diff of Pedido.actualizar_stock

  /**
   * The previous quantity the diff uses for a product: that of the LAST
   * echoed entry with the same product and a non-zero id, else 0.
   */
  function CantidadAnterior(anteriores: seq<LineaAnterior>, producto: int): (r: int)
    ensures r != 0 ==> exists i :: 0 <= i < |anteriores| && anteriores[i].producto == producto
                                  && anteriores[i].id != 0 && anteriores[i].cantidad == r
    ensures (forall i :: 0 <= i < |anteriores| ==> anteriores[i].producto != producto || anteriores[i].id == 0) ==> r == 0
  {
    if anteriores == [] then 0
    else
      var a := anteriores[|anteriores| - 1];
      if a.producto == producto && a.id != 0 then a.cantidad
      else
        var r := CantidadAnterior(anteriores[..|anteriores| - 1], producto);
        assert forall i :: 0 <= i < |anteriores| - 1 ==> anteriores[..|anteriores| - 1][i] == anteriores[i];
        r
  }

  function ValorAnterior(anterior: Option<int>): int
  {
    if anterior.None? then 0 else anterior.value
  }

  /**
   * The movement `PedidoLinea.actualizar_stock(anterior)` makes: stock
   * drops by `cantidad - anterior`; a missing or zero previous quantity is
   * logged as a creation, any other as an update.
   */
  function MovLinea(l: PedidoLinea, anterior: int, pedido: nat): (m: Movimiento)
    ensures m.producto == l.producto && m.cantidad == -(l.cantidad - anterior)
  {
    Movimiento(l.producto, anterior - l.cantidad, LineaPedido(if anterior == 0 then Creacion else Actualizacion, pedido))
  }

  /** First half of the diff: a movement for every line whose quantity changed. */
  function MovsLineas(lineas: seq<PedidoLinea>, anteriores: seq<LineaAnterior>, pedido: nat): seq<Movimiento>
  {
    if lineas == [] then []
    else
      var l := lineas[|lineas| - 1];
      var ant := CantidadAnterior(anteriores, l.producto);
      MovsLineas(lineas[..|lineas| - 1], anteriores, pedido)
      + (if l.cantidad - ant != 0 then [MovLinea(l, ant, pedido)] else [])
  }

  /** Whether some line of the order is of product `p`. */
  predicate EnLineas(p: int, lineas: seq<PedidoLinea>)
  {
    exists k :: 0 <= k < |lineas| && lineas[k].producto == p
  }

  /**
   * The diff writes nothing for a line whose quantity did not change, and
   * only touches products of the order's lines.
   */
  lemma {:induction false} MovsLineasSinCeros(lineas: seq<PedidoLinea>, anteriores: seq<LineaAnterior>, pedido: nat)
    ensures forall i :: 0 <= i < |MovsLineas(lineas, anteriores, pedido)| ==> MovsLineas(lineas, anteriores, pedido)[i].cantidad != 0
    ensures forall i :: 0 <= i < |MovsLineas(lineas, anteriores, pedido)| ==> EnLineas(MovsLineas(lineas, anteriores, pedido)[i].producto, lineas)
    decreases |lineas|
  {
    if lineas != [] {
      var n := |lineas| - 1;
      MovsLineasSinCeros(lineas[..n], anteriores, pedido);
      var previos := MovsLineas(lineas[..n], anteriores, pedido);
      var ant := CantidadAnterior(anteriores, lineas[n].producto);
      var cola := if lineas[n].cantidad - ant != 0 then [MovLinea(lineas[n], ant, pedido)] else [];
      var r := MovsLineas(lineas, anteriores, pedido);
      assert r == previos + cola;
      forall i | 0 <= i < |r|
        ensures r[i].cantidad != 0 && EnLineas(r[i].producto, lineas)
      {
        if i < |previos| {
          assert r[i] == previos[i];
          assert EnLineas(previos[i].producto, lineas[..n]);
          var k :| 0 <= k < n && lineas[..n][k].producto == previos[i].producto;
          assert lineas[k].producto == r[i].producto;
        } else {
          assert r[i] == MovLinea(lineas[n], ant, pedido);
          assert lineas[n].producto == r[i].producto;
        }
      }
    }
  }

  lemma MovsLineasPaso(lineas: seq<PedidoLinea>, anteriores: seq<LineaAnterior>, pedido: nat, i: nat)
    requires i < |lineas|
    ensures MovsLineas(lineas[..i + 1], anteriores, pedido) == MovsLineas(lineas[..i], anteriores, pedido)
      + (if lineas[i].cantidad - CantidadAnterior(anteriores, lineas[i].producto) != 0
         then [MovLinea(lineas[i], CantidadAnterior(anteriores, lineas[i].producto), pedido)] else [])
  {
    assert lineas[..i + 1][..i] == lineas[..i];
  }

  predicate TieneLineaId(lineas: seq<PedidoLinea>, id: int)
  {
    exists k :: 0 <= k < |lineas| && lineas[k].id == id
  }

  /** Whether the diff gives an echoed entry's quantity back to stock. */
  predicate Borrada(a: LineaAnterior, lineas: seq<PedidoLinea>, productos: set<int>)
  {
    a.id != 0 && !TieneLineaId(lineas, a.id) && a.producto in productos
  }

  /**
   * Second half of the diff: every saved echoed line that is no longer
   * among the order's lines gives its quantity back, when its product
   * still exists.
   */
  function MovsBorrados(anteriores: seq<LineaAnterior>, lineas: seq<PedidoLinea>, productos: set<int>, pedido: nat): seq<Movimiento>
  {
    if anteriores == [] then []
    else
      var a := anteriores[|anteriores| - 1];
      MovsBorrados(anteriores[..|anteriores| - 1], lineas, productos, pedido)
      + (if Borrada(a, lineas, productos) then [Movimiento(a.producto, a.cantidad, LineaPedido(Borrado, pedido))] else [])
  }

  lemma MovsBorradosPaso(anteriores: seq<LineaAnterior>, lineas: seq<PedidoLinea>, productos: set<int>, pedido: nat, k: nat)
    requires k < |anteriores|
    ensures Borrada(anteriores[k], lineas, productos) ==>
      MovsBorrados(anteriores[..k + 1], lineas, productos, pedido)
      == MovsBorrados(anteriores[..k], lineas, productos, pedido)
         + [Movimiento(anteriores[k].producto, anteriores[k].cantidad, LineaPedido(Borrado, pedido))]
    ensures !Borrada(anteriores[k], lineas, productos) ==>
      MovsBorrados(anteriores[..k + 1], lineas, productos, pedido) == MovsBorrados(anteriores[..k], lineas, productos, pedido)
  {
    assert anteriores[..k + 1][..k] == anteriores[..k];
    assert MovsBorrados(anteriores[..k], lineas, productos, pedido) + [] == MovsBorrados(anteriores[..k], lineas, productos, pedido);
  }

  /** Sum over the lines of product `p` of `cantidad - previous quantity`. */
  function Diferencia(lineas: seq<PedidoLinea>, anteriores: seq<LineaAnterior>, p: int): int
  {
    if lineas == [] then 0
    else
      var l := lineas[|lineas| - 1];
      Diferencia(lineas[..|lineas| - 1], anteriores, p)
      + (if l.producto == p then l.cantidad - CantidadAnterior(anteriores, p) else 0)
  }

  /** Sum of the quantities of the removed echoed lines of product `p`. */
  function Restituido(anteriores: seq<LineaAnterior>, lineas: seq<PedidoLinea>, productos: set<int>, p: int): int
  {
    if anteriores == [] then 0
    else
      var a := anteriores[|anteriores| - 1];
      Restituido(anteriores[..|anteriores| - 1], lineas, productos, p)
      + (if a.producto == p && Borrada(a, lineas, productos) then a.cantidad else 0)
  }

  lemma {:induction false} SumaMovsLineas(lineas: seq<PedidoLinea>, anteriores: seq<LineaAnterior>, pedido: nat, p: int)
    ensures SumaMovimientos(MovsLineas(lineas, anteriores, pedido), p) == -Diferencia(lineas, anteriores, p)
    decreases |lineas|
  {
    if lineas != [] {
      var n := |lineas| - 1;
      var l := lineas[n];
      var ant := CantidadAnterior(anteriores, l.producto);
      var cola := if l.cantidad - ant != 0 then [MovLinea(l, ant, pedido)] else [];
      SumaMovsLineas(lineas[..n], anteriores, pedido, p);
      SumaMovimientosConcatenar(MovsLineas(lineas[..n], anteriores, pedido), cola, p);
      assert SumaMovimientos(cola, p) == (if l.producto == p then -(l.cantidad - ant) else 0) by {
        if cola != [] {
          assert cola[..0] == [];
        }
      }
    }
  }

  lemma {:induction false} SumaMovsBorrados(anteriores: seq<LineaAnterior>, lineas: seq<PedidoLinea>, productos: set<int>, pedido: nat, p: int)
    ensures SumaMovimientos(MovsBorrados(anteriores, lineas, productos, pedido), p) == Restituido(anteriores, lineas, productos, p)
    decreases |anteriores|
  {
    if anteriores != [] {
      var n := |anteriores| - 1;
      var a := anteriores[n];
      var cola := if Borrada(a, lineas, productos) then [Movimiento(a.producto, a.cantidad, LineaPedido(Borrado, pedido))] else [];
      SumaMovsBorrados(anteriores[..n], lineas, productos, pedido, p);
      SumaMovimientosConcatenar(MovsBorrados(anteriores[..n], lineas, productos, pedido), cola, p);
      assert SumaMovimientos(cola, p) == (if a.producto == p && Borrada(a, lineas, productos) then a.cantidad else 0) by {
        if cola != [] {
          assert cola[..0] == [];
        }
      }
    }
  }

  /**
   * Editing an order that echoes its own lines back unchanged moves no
   * stock: every line's previous quantity is its current one.
   */
  lemma {:induction false} SinCambiosSinDiferencia(lineas: seq<PedidoLinea>, anteriores: seq<LineaAnterior>, p: int)
    requires forall k :: 0 <= k < |lineas| && lineas[k].producto == p ==> lineas[k].cantidad == CantidadAnterior(anteriores, p)
    ensures Diferencia(lineas, anteriores, p) == 0
    decreases |lineas|
  {
    if lineas != [] {
      SinCambiosSinDiferencia(lineas[..|lineas| - 1], anteriores, p);
    }
  }

  // ---------------------------------------------------------------------

  /** A customer order. */
  class Pedido {
    const id: nat
    var usuario: Usuario
    var venta: Venta?
    var ultimoEstado: string
    var estados: seq<Estado>
    var lineas: seq<PedidoLinea>
    var total: int
    var forzar: bool
    var cambio: int
    var observaciones: string
    var tipo: string
    var direccion: string

    /** A new order of `usuario`: open, empty, pick-up, total 0. */
    constructor (id: nat, usuario: Usuario)
      ensures this.id == id && this.usuario == usuario && venta == null
      ensures ultimoEstado == ABIERTO && estados == [] && lineas == [] && total == 0
      ensures !forzar && cambio == 0 && observaciones == "" && tipo == TIPO_RETIRO && direccion == ""
    {
      this.id := id;
      this.usuario := usuario;
      venta := null;
      ultimoEstado := ABIERTO;
      estados := [];
      lineas := [];
      total := 0;
      forzar := false;
      cambio := 0;
      observaciones := "";
      tipo := TIPO_RETIRO;
      direccion := "";
    }

    predicate ComprobarVacio() reads this { |lineas| == 0 }

    // The state checks `comprobar_estado_*`: each holds only for a valid
    // state, and no two hold together.

    function ComprobarEstadoEnCurso(): (r: bool)
      reads this
      ensures r ==> ComprobarEstadoValido(ultimoEstado)
      ensures r ==> !ComprobarEstadoAbierto() && !ComprobarEstadoRecibido() && !ComprobarEstadoAnulado() && !ComprobarEstadoDisponible()
    {
      ultimoEstado == EN_CURSO
    }

    function ComprobarEstadoAbierto(): (r: bool)
      reads this
      ensures r ==> ComprobarEstadoValido(ultimoEstado)
      ensures r ==> !ComprobarEstadoRecibido() && !ComprobarEstadoAnulado() && !ComprobarEstadoDisponible()
    {
      ultimoEstado == ABIERTO
    }

    function ComprobarEstadoRecibido(): (r: bool)
      reads this
      ensures r ==> ComprobarEstadoValido(ultimoEstado)
      ensures r ==> !ComprobarEstadoAnulado() && !ComprobarEstadoDisponible()
    {
      ultimoEstado == RECIBIDO
    }

    function ComprobarEstadoAnulado(): (r: bool)
      reads this
      ensures r ==> ComprobarEstadoValido(ultimoEstado)
      ensures r ==> !ComprobarEstadoDisponible()
    {
      ultimoEstado == ANULADO
    }

    function ComprobarEstadoDisponible(): (r: bool)
      reads this
      ensures r ==> ComprobarEstadoValido(ultimoEstado)
    {
      ultimoEstado == DISPONIBLE
    }

    /** The owner always sees the order; other users only if admin or seller. */
    function ComprobarPuedeVisualizar(u: Usuario): (r: bool)
      reads this, u, usuario
      ensures MismoUsuario(usuario, u) ==> r
      ensures !u.esAdmin && !u.esVendedor ==> (r <==> MismoUsuario(usuario, u))
      ensures u.esAdmin || u.esVendedor ==> r
    {
      var leP := MismoUsuario(usuario, u);
      leP || u.esAdmin || u.esVendedor
    }

    /** Only a seller hands over an order, and only once it is available. */
    function ComprobarPuedeEntregar(u: Usuario): (r: bool)
      reads this, u
      ensures r ==> ultimoEstado == DISPONIBLE
      ensures ultimoEstado == DISPONIBLE ==> (r <==> u.esVendedor)
    {
      ComprobarEstadoDisponible() && u.esVendedor
    }

    /**
     * Who may void the order, by state: an open order only its owner; an
     * order in course or available its owner or a seller; nobody once it
     * is received, voided or delivered.
     */
    function ComprobarPuedeAnular(u: Usuario): (r: bool)
      reads this, u, usuario
      ensures ultimoEstado == ABIERTO ==> (r <==> MismoUsuario(usuario, u))
      ensures ultimoEstado == EN_CURSO || ultimoEstado == DISPONIBLE ==> (r <==> MismoUsuario(usuario, u) || u.esVendedor)
      ensures ultimoEstado != ABIERTO && ultimoEstado != EN_CURSO && ultimoEstado != DISPONIBLE ==> !r
    {
      var abierto := ComprobarEstadoAbierto();
      var enCurso := ComprobarEstadoEnCurso();
      var disponible := ComprobarEstadoDisponible();
      var lePertenece := MismoUsuario(usuario, u);
      ((enCurso || disponible) && u.esVendedor) || (lePertenece && (abierto || enCurso || disponible))
    }

    /** Only a seller marks an order available, and only while in course. */
    function ComprobarPuedeMarcarDisponible(u: Usuario): (r: bool)
      reads this, u
      ensures r ==> ultimoEstado == EN_CURSO
      ensures ultimoEstado == EN_CURSO ==> (r <==> u.esVendedor)
    {
      ComprobarEstadoEnCurso() && u.esVendedor
    }

    /** The kitchen ticket is printed by a seller for an order in course. */
    function ComprobarPuedeEmitirComanda(u: Usuario): (r: bool)
      reads this, u
      ensures r ==> ultimoEstado == EN_CURSO
      ensures ultimoEstado == EN_CURSO ==> (r <==> u.esVendedor)
    {
      ComprobarEstadoEnCurso() && u.esVendedor
    }

    /** Pick-up and delivery are the only order types. */
    function ComprobarTipoValido(t: string): (r: bool)
      ensures r <==> t in {TIPO_RETIRO, TIPO_DELIVERY}
    {
      t == TIPO_RETIRO || t == TIPO_DELIVERY
    }

    /** Whether `t`, or the order's own type when `t` is absent, is delivery. */
    function ComprobarTipoDelivery(t: Option<string>): (r: bool)
      reads this
      ensures t.None? ==> (r <==> tipo == TIPO_DELIVERY)
      ensures t.Some? ==> (r <==> t.value == TIPO_DELIVERY)
    {
      var elegido := if t.None? then tipo else t.value;
      elegido == TIPO_DELIVERY
    }

    function ComprobarTieneVuelto(): (r: bool)
      reads this
      ensures r ==> cambio > 0
      ensures cambio > 0 ==> r
    {
      cambio > 0
    }

    /**
     * `get_cantidad_producto(producto)`: the quantity of the first line of
     * that product, 0 when there is none.
     */
    function GetCantidadProducto(producto: int): (r: int)
      reads this
      ensures (forall k :: 0 <= k < |lineas| ==> lineas[k].producto != producto) ==> r == 0
      ensures forall k :: EsPrimera(lineas, k, producto) ==> r == lineas[k].cantidad
    {
      CantidadPrimera(lineas, producto)
    }

    function GetIdTexto(): (r: string)
      reads this
      ensures r != [] && r[0] == 'P'
    {
      IdTexto('P', id)
    }

    /** Every line refers to a product of the catalogue (the FK is PROTECT). */
    ghost predicate ProductosEn(claves: set<int>)
      reads this
    {
      forall k :: 0 <= k < |lineas| ==> lineas[k].producto in claves
    }

    /** `actualizar_total`: the order total is the sum of its line totals. */
    method ActualizarTotal()
      modifies this`total
      ensures total == SumaTotales(lineas)
    {
      var suma := 0;
      var i := 0;
      while i < |lineas|
        invariant 0 <= i <= |lineas|
        invariant suma == SumaTotales(lineas[..i])
      {
        assert lineas[..i + 1][..i] == lineas[..i];
        suma := suma + lineas[i].total;
        i := i + 1;
      }
      assert lineas[..|lineas|] == lineas;
      total := suma;
    }

    /**
     * `agregar_estado(estado)`: the order ends in `estado`. When the history
     * has no record of that state one is appended; otherwise the most
     * recent such record gets the current date and nothing is appended.
     */
    method AgregarEstado(estado: string, ahora: int)
      modifies this`estados, this`ultimoEstado
      ensures ultimoEstado == estado
      ensures (forall i :: 0 <= i < |old(estados)| ==> old(estados)[i].estado != estado) ==>
        estados == old(estados) + [Estado(estado, ahora)]
      ensures (exists i :: 0 <= i < |old(estados)| && old(estados)[i].estado == estado) ==>
        exists k :: 0 <= k < |old(estados)| && old(estados)[k].estado == estado
          && (forall i :: 0 <= i < |old(estados)| && old(estados)[i].estado == estado ==> old(estados)[i].fecha <= old(estados)[k].fecha)
          && estados == old(estados)[k := Estado(estado, ahora)]
    {
      var ultimo := IndiceUltimo(estados, estado);
      if ultimo.None? {
        estados := estados + [Estado(estado, ahora)];
        ultimoEstado := estado;
      } else {
        estados := estados[ultimo.value := Estado(estado, ahora)];
      }
      var coleccion := IndiceUltimo(estados, estado);
      assert estados[if ultimo.None? then |estados| - 1 else ultimo.value].estado == estado;
      var ultimoColeccion := estados[coleccion.value].estado;
      if ultimoEstado != ultimoColeccion {
        ultimoEstado := ultimoColeccion;
      }
    }

    /**
     * `PedidoLinea.actualizar_stock(anterior)` for line `i`: the product's
     * stock drops by `cantidad - anterior` (by `cantidad` when there is no
     * previous quantity or it is 0).
     */
    method ActualizarStockLinea(i: nat, anterior: Option<int>, cat: Catalogo)
      requires i < |lineas| && cat.Valid() && lineas[i].producto in cat.stock
      modifies cat`stock, cat`movimientos
      ensures cat.Valid()
      ensures cat.stock == old(cat.stock)[lineas[i].producto :=
        old(cat.stock)[lineas[i].producto] - (lineas[i].cantidad - ValorAnterior(anterior))]
      ensures cat.movimientos == old(cat.movimientos) + [MovLinea(lineas[i], ValorAnterior(anterior), id)]
    {
      var p := lineas[i].producto;
      var stock := cat.stock[p];
      var cantidad := lineas[i].cantidad;
      if anterior.None? || anterior.value == 0 {
        var nuevo := stock - cantidad;
        cat.ActualizarStock(p, nuevo, LineaPedido(Creacion, id));
      } else {
        var diferencia := cantidad - anterior.value;
        var nuevo := stock - diferencia;
        cat.ActualizarStock(p, nuevo, LineaPedido(Actualizacion, id));
      }
    }

    /** `PedidoLinea.limpiar_stock` for line `i`: its quantity goes back to stock. */
    method LimpiarStock(i: nat, cat: Catalogo)
      requires i < |lineas| && cat.Valid() && lineas[i].producto in cat.stock
      modifies cat`stock, cat`movimientos
      ensures cat.Valid()
      ensures cat.stock == old(cat.stock)[lineas[i].producto := old(cat.stock)[lineas[i].producto] + lineas[i].cantidad]
      ensures cat.movimientos == old(cat.movimientos) + [Movimiento(lineas[i].producto, lineas[i].cantidad, LineaPedido(Borrado, id))]
    {
      var p := lineas[i].producto;
      var nuevo := cat.stock[p] + lineas[i].cantidad;
      cat.ActualizarStock(p, nuevo, LineaPedido(Borrado, id));
    }

    /**
     * `PedidoLinea.actualizar_total` for line `i`: the unit price is the
     * product's current price and the line total is price times quantity;
     * the order sum moves by the change of that one line.
     */
    method ActualizarTotalLinea(i: nat, cat: Catalogo)
      requires i < |lineas| && lineas[i].producto in cat.productos
      modifies this`lineas
      ensures |lineas| == |old(lineas)|
      ensures lineas == old(lineas)[i := old(lineas)[i].(subtotal := cat.Precio(old(lineas)[i].producto),
                                                        total := cat.Precio(old(lineas)[i].producto) * old(lineas)[i].cantidad)]
      ensures SumaTotales(lineas) == SumaTotales(old(lineas)) - old(lineas)[i].total + lineas[i].total
    {
      var precio := cat.Precio(lineas[i].producto);
      var t := precio * lineas[i].cantidad;
      SumaTotalesReemplazo(lineas, i, lineas[i].(subtotal := precio, total := t));
      lineas := lineas[i := lineas[i].(subtotal := precio, total := t)];
    }

    /**
     * `actualizar_stock(anteriores)`: diffs the echoed previous lines against
     * the current ones. The log grows by the movements of the changed lines
     * and then by those of the removed lines; per product, the stock drops by
     * the quantity added to the order and rises by the quantity of its
     * removed lines.
     */
    method ActualizarStock(anteriores: seq<LineaAnterior>, cat: Catalogo)
      requires cat.Valid() && ProductosEn(cat.productos.Keys)
      modifies cat`stock, cat`movimientos
      ensures cat.Valid()
      ensures cat.movimientos == old(cat.movimientos) + MovsLineas(lineas, anteriores, id)
                                 + MovsBorrados(anteriores, lineas, cat.productos.Keys, id)
      ensures forall p :: p in cat.stock ==>
        cat.stock[p] == old(cat.stock)[p] - Diferencia(lineas, anteriores, p) + Restituido(anteriores, lineas, cat.productos.Keys, p)
    {
      ghost var movs0 := cat.movimientos;
      ghost var stock0 := cat.stock;
      assert MovimientosSobre(movs0, cat.inicial.Keys) && stock0 == Aplicar(cat.inicial, movs0);
      ActualizarStockLineas(anteriores, cat);
      RestituirBorrados(anteriores, cat);
      ghost var a := MovsLineas(lineas, anteriores, id);
      ghost var b := MovsBorrados(anteriores, lineas, cat.productos.Keys, id);
      assert (movs0 + a) + b == movs0 + (a + b);
      StockTrasMovimientos(cat, stock0, movs0, a + b);
      forall p | p in cat.stock
        ensures cat.stock[p] == stock0[p] - Diferencia(lineas, anteriores, p) + Restituido(anteriores, lineas, cat.productos.Keys, p)
      {
        SumaMovimientosConcatenar(a, b, p);
        SumaMovsLineas(lineas, anteriores, id, p);
        SumaMovsBorrados(anteriores, lineas, cat.productos.Keys, id, p);
      }
    }

    /** The first loop of `actualizar_stock`: one write per changed line. */
    method ActualizarStockLineas(anteriores: seq<LineaAnterior>, cat: Catalogo)
      requires cat.Valid() && ProductosEn(cat.productos.Keys)
      modifies cat`stock, cat`movimientos
      ensures cat.Valid()
      ensures cat.movimientos == old(cat.movimientos) + MovsLineas(lineas, anteriores, id)
    {
      ghost var movs0 := cat.movimientos;
      var i := 0;
      while i < |lineas|
        invariant 0 <= i <= |lineas|
        invariant cat.Valid()
        invariant cat.movimientos == movs0 + MovsLineas(lineas[..i], anteriores, id)
      {
        var linea := lineas[i];
        var cantidadAnterior := BuscarCantidadAnterior(anteriores, linea.producto);
        ghost var previos := MovsLineas(lineas[..i], anteriores, id);
        ghost var siguientes := MovsLineas(lineas[..i + 1], anteriores, id);
        MovsLineasPaso(lineas, anteriores, id, i);
        var nuevaCantidad := linea.cantidad - cantidadAnterior;
        if nuevaCantidad != 0 {
          assert linea.producto in cat.stock;
          ghost var m := MovLinea(linea, cantidadAnterior, id);
          ActualizarStockLinea(i, Some(cantidadAnterior), cat);
          assert cat.movimientos == (movs0 + previos) + [m];
          assert (movs0 + previos) + [m] == movs0 + (previos + [m]);
          assert siguientes == previos + [m];
        } else {
          assert siguientes == previos;
        }
        i := i + 1;
      }
      assert lineas[..|lineas|] == lineas;
    }

    /**
     * The second loop of `actualizar_stock`: every saved echoed line that no
     * current line carries the id of gives its quantity back.
     */
    method RestituirBorrados(anteriores: seq<LineaAnterior>, cat: Catalogo)
      requires cat.Valid()
      modifies cat`stock, cat`movimientos
      ensures cat.Valid()
      ensures cat.movimientos == old(cat.movimientos) + MovsBorrados(anteriores, lineas, cat.productos.Keys, id)
    {
      ghost var movs0 := cat.movimientos;
      var k := 0;
      while k < |anteriores|
        invariant 0 <= k <= |anteriores|
        invariant cat.Valid()
        invariant cat.movimientos == movs0 + MovsBorrados(anteriores[..k], lineas, cat.productos.Keys, id)
      {
        var anterior := anteriores[k];
        var existe := ExisteLinea(anterior.id);
        ghost var previos := MovsBorrados(anteriores[..k], lineas, cat.productos.Keys, id);
        var m := Movimiento(anterior.producto, anterior.cantidad, LineaPedido(Borrado, id));
        MovsBorradosPaso(anteriores, lineas, cat.productos.Keys, id, k);
        if !existe && anterior.id != 0 {
          if anterior.producto in cat.productos {
            var nuevo := cat.stock[anterior.producto] + anterior.cantidad;
            cat.ActualizarStock(anterior.producto, nuevo, LineaPedido(Borrado, id));
            assert MovsBorrados(anteriores[..k + 1], lineas, cat.productos.Keys, id) == previos + [m];
          } else {
            assert MovsBorrados(anteriores[..k + 1], lineas, cat.productos.Keys, id) == previos;
          }
        } else {
          assert MovsBorrados(anteriores[..k + 1], lineas, cat.productos.Keys, id) == previos;
        }
        k := k + 1;
      }
      assert anteriores[..|anteriores|] == anteriores;
    }

    /** The inner loop over the echoed lines: the last matching quantity wins. */
    method BuscarCantidadAnterior(anteriores: seq<LineaAnterior>, producto: int) returns (cantidadAnterior: int)
      ensures cantidadAnterior == CantidadAnterior(anteriores, producto)
    {
      cantidadAnterior := 0;
      var j := 0;
      while j < |anteriores|
        invariant 0 <= j <= |anteriores|
        invariant cantidadAnterior == CantidadAnterior(anteriores[..j], producto)
      {
        var anterior := anteriores[j];
        if anterior.producto == producto && anterior.id != 0 {
          cantidadAnterior := anterior.cantidad;
        }
        assert anteriores[..j + 1][..j] == anteriores[..j];
        j := j + 1;
      }
      assert anteriores[..|anteriores|] == anteriores;
    }

    /** The inner loop over the current lines: is `idLinea` one of their ids? */
    method ExisteLinea(idLinea: int) returns (existe: bool)
      ensures existe <==> TieneLineaId(lineas, idLinea)
    {
      existe := false;
      var m := 0;
      while m < |lineas|
        invariant 0 <= m <= |lineas|
        invariant existe <==> exists q :: 0 <= q < m && lineas[q].id == idLinea
      {
        if lineas[m].id == idLinea {
          existe := true;
        }
        m := m + 1;
      }
    }

    /**
     * `crear_venta`: an online sale of the order's owner linked to the
     * order, one line per order line with the same product and quantity at
     * the product's current price, its total the sum of the line totals.
     * The catalogue is only read, so no stock moves.
     */
    method CrearVenta(idVenta: nat, cat: Catalogo) returns (v: Venta)
      requires ProductosEn(cat.productos.Keys)
      modifies this`venta
      ensures fresh(v) && venta == v
      ensures v.id == idVenta && v.usuario == usuario && v.tipo == ONLINE && v.pedido == this
      ensures v.turno == None && v.anulado == None
      ensures |v.lineas| == |lineas|
      ensures forall i :: 0 <= i < |lineas| ==>
        v.lineas[i] == VentaLinea(lineas[i].producto, lineas[i].cantidad, cat.Precio(lineas[i].producto),
                                  cat.Precio(lineas[i].producto) * lineas[i].cantidad)
      ensures v.total == SumaVenta(v.lineas)
    {
      v := new Venta(idVenta, usuario, ONLINE, this, None);
      var i := 0;
      while i < |lineas|
        invariant 0 <= i <= |lineas|
        invariant fresh(v)
        invariant v.id == idVenta && v.usuario == usuario && v.tipo == ONLINE && v.pedido == this
        invariant v.turno == None && v.anulado == None
        invariant |v.lineas| == i
        invariant forall q :: 0 <= q < i ==>
          v.lineas[q] == VentaLinea(lineas[q].producto, lineas[q].cantidad, cat.Precio(lineas[q].producto),
                                    cat.Precio(lineas[q].producto) * lineas[q].cantidad)
      {
        var producto := lineas[i].producto;
        var cantidad := lineas[i].cantidad;
        var precio := cat.Precio(producto);
        v.AgregarLinea(VentaLinea(producto, cantidad, precio, precio * cantidad));
        i := i + 1;
      }
      v.Actualizar();
      venta := v;
    }

    /** The order's sale, as a set: empty when it has none. */
    function VentaActual(): set<Venta>
      reads this
    {
      if venta == null then {} else {venta}
    }

    /** `anular_venta`: voids the order's sale, if it has one. */
    method AnularVenta(cat: Catalogo, ahora: int)
      requires cat.Valid()
      requires venta != null ==> venta.ProductosEn(cat.productos.Keys)
      modifies set v | v in VentaActual() :: v`anulado, cat`stock, cat`movimientos
      ensures cat.Valid()
      ensures venta == null ==> cat.stock == old(cat.stock) && cat.movimientos == old(cat.movimientos)
      ensures venta != null ==> venta.anulado == Some(ahora) && venta.ComprobarAnulada()
      ensures venta != null ==> venta.lineas == old(venta.lineas) && venta.total == old(venta.total)
      ensures venta != null ==> cat.movimientos == old(cat.movimientos) + MovsVenta(venta.lineas, DeVenta(venta.id, true))
      ensures venta != null ==> forall p :: p in cat.stock ==> cat.stock[p] == old(cat.stock)[p] - CantidadVendida(venta.lineas, p)
    {
      if venta == null {
        return;
      }
      venta.Anular(cat, ahora);
    }
  }

  /** Line `k` is the first line of `producto`. */
  predicate EsPrimera(lineas: seq<PedidoLinea>, k: int, producto: int)
  {
    0 <= k < |lineas| && lineas[k].producto == producto
    && forall j :: 0 <= j < k ==> lineas[j].producto != producto
  }

  /** The quantity of the first line of `producto`, else 0. */
  function CantidadPrimera(lineas: seq<PedidoLinea>, producto: int): (r: int)
    ensures (forall k :: 0 <= k < |lineas| ==> lineas[k].producto != producto) ==> r == 0
    ensures forall k :: EsPrimera(lineas, k, producto) ==> r == lineas[k].cantidad
  {
    if lineas == [] then 0
    else if lineas[0].producto == producto then lineas[0].cantidad
    else
      var resto := lineas[1..];
      var r := CantidadPrimera(resto, producto);
      assert forall k :: 1 <= k < |lineas| ==> resto[k - 1] == lineas[k];
      assert forall k :: EsPrimera(lineas, k, producto) ==> k >= 1 && EsPrimera(resto, k - 1, producto);
      r
  }

  /**
   * The most recent record of state `e` in the history (ties go to the
   * earliest record), if any.
   */
  function IndiceUltimo(estados: seq<Estado>, e: string): (r: Option<nat>)
    ensures r.None? <==> forall i :: 0 <= i < |estados| ==> estados[i].estado != e
    ensures r.Some? ==> r.value < |estados| && estados[r.value].estado == e
    ensures r.Some? ==> forall i :: 0 <= i < |estados| && estados[i].estado == e ==> estados[i].fecha <= estados[r.value].fecha
  {
    if estados == [] then None
    else
      var n := |estados| - 1;
      var previo := IndiceUltimo(estados[..n], e);
      assert forall i :: 0 <= i < n ==> estados[..n][i] == estados[i];
      if estados[n].estado != e then previo
      else if previo.Some? && estados[previo.value].fecha >= estados[n].fecha then previo
      else Some(n)
  }

  // ---------------------------------------------------------------------

  /** A sale: over the counter, online (from an order) or at a table. */
  class Venta {
    const id: nat
    var usuario: Usuario
    var pedido: Pedido?
    var turno: Option<nat>
    var total: int
    var tipo: string
    var anulado: Option<int>
    var lineas: seq<VentaLinea>

    constructor (id: nat, usuario: Usuario, tipo: string, pedido: Pedido?, turno: Option<nat>)
      ensures this.id == id && this.usuario == usuario && this.tipo == tipo
      ensures this.pedido == pedido && this.turno == turno
      ensures total == 0 && anulado == None && lineas == []
    {
      this.id := id;
      this.usuario := usuario;
      this.tipo := tipo;
      this.pedido := pedido;
      this.turno := turno;
      total := 0;
      anulado := None;
      lineas := [];
    }

    function GetIdTexto(): (r: string)
      reads this
      ensures r != [] && r[0] == 'V'
    {
      IdTexto('V', id)
    }

    /** `__str__`, the description of the sale's stock movements. */
    function Str(): string
      reads this
    {
      Texto(DeVenta(id, false))
    }

    ghost predicate ProductosEn(claves: set<int>)
      reads this
    {
      forall k :: 0 <= k < |lineas| ==> lineas[k].producto in claves
    }

    /** Saving a `VentaLinea` of this sale. */
    method AgregarLinea(l: VentaLinea)
      modifies this`lineas
      ensures lineas == old(lineas) + [l]
    {
      lineas := lineas + [l];
    }

    /** Admins and sellers see sales. */
    function ComprobarPuedeVisualizar(u: Usuario): (r: bool)
      reads u
      ensures r <==> u.esAdmin || u.esVendedor
    {
      u.esAdmin || u.esVendedor
    }

    /** `comprobar_anulada`: a sale is voided once it has a void date. */
    function ComprobarAnulada(): (r: bool)
      reads this
      ensures r <==> anulado.Some?
    {
      anulado.Some?
    }

    /**
     * `comprobar_puede_anular`: only admins and sellers, only a sale not yet
     * voided, and only a counter sale or an online sale whose order is
     * available. A table sale is never voided this way.
     */
    function ComprobarPuedeAnular(u: Usuario): (r: bool)
      reads this, u, pedido
      ensures r ==> (u.esAdmin || u.esVendedor) && anulado.None?
      ensures tipo != ALMACEN && tipo != ONLINE ==> !r
      ensures tipo == MESA ==> !r
      ensures tipo == ALMACEN ==> (r <==> (u.esAdmin || u.esVendedor) && anulado.None?)
      ensures tipo == ONLINE ==>
        (r <==> (u.esAdmin || u.esVendedor) && anulado.None? && pedido != null && pedido.ultimoEstado == DISPONIBLE)
    {
      var anulada := ComprobarAnulada();
      var disponible := if pedido != null then pedido.ComprobarEstadoDisponible() else false;
      var puedeAnularVentaPedido := tipo == ONLINE && disponible;
      (u.esAdmin || u.esVendedor) && !anulada && (tipo == ALMACEN || puedeAnularVentaPedido)
    }

    /** `VentaLinea.actualizar_total` for line `i`: total is price times quantity. */
    method ActualizarTotalLinea(i: nat)
      requires i < |lineas|
      modifies this`lineas
      ensures lineas == old(lineas)[i := old(lineas)[i].(total := old(lineas)[i].precio * old(lineas)[i].cantidad)]
    {
      lineas := lineas[i := lineas[i].(total := lineas[i].precio * lineas[i].cantidad)];
    }

    /** `actualizar_lineas`: every line total becomes price times quantity. */
    method ActualizarLineas()
      modifies this`lineas
      ensures |lineas| == |old(lineas)|
      ensures forall i :: 0 <= i < |lineas| ==>
        lineas[i] == old(lineas)[i].(total := old(lineas)[i].precio * old(lineas)[i].cantidad)
    {
      var i := 0;
      while i < |lineas|
        invariant 0 <= i <= |lineas| == |old(lineas)|
        invariant forall q :: 0 <= q < i ==> lineas[q] == old(lineas)[q].(total := old(lineas)[q].precio * old(lineas)[q].cantidad)
        invariant forall q :: i <= q < |lineas| ==> lineas[q] == old(lineas)[q]
      {
        ActualizarTotalLinea(i);
        i := i + 1;
      }
    }

    /** `actualizar_total`: the sale total is the sum of its line totals. */
    method ActualizarTotal()
      modifies this`total
      ensures total == SumaVenta(lineas)
    {
      var suma := 0;
      var i := 0;
      while i < |lineas|
        invariant 0 <= i <= |lineas|
        invariant suma == SumaVenta(lineas[..i])
      {
        assert lineas[..i + 1][..i] == lineas[..i];
        suma := suma + lineas[i].total;
        i := i + 1;
      }
      assert lineas[..|lineas|] == lineas;
      total := suma;
    }

    /** `actualizar`: recompute every line total, then the sale total. */
    method Actualizar()
      modifies this`lineas, this`total
      ensures |lineas| == |old(lineas)|
      ensures forall i :: 0 <= i < |lineas| ==> lineas[i] == old(lineas)[i].(total := old(lineas)[i].precio * old(lineas)[i].cantidad)
      ensures total == SumaVenta(lineas)
    {
      ActualizarLineas();
      ActualizarTotal();
    }

    /** `VentaLinea.crear_movimiento` for line `i`: stock drops by its quantity. */
    method CrearMovimiento(i: nat, cat: Catalogo)
      requires i < |lineas| && cat.Valid() && lineas[i].producto in cat.stock
      modifies cat`stock, cat`movimientos
      ensures cat.Valid()
      ensures cat.stock == old(cat.stock)[lineas[i].producto := old(cat.stock)[lineas[i].producto] - lineas[i].cantidad]
      ensures cat.movimientos == old(cat.movimientos) + [Movimiento(lineas[i].producto, -lineas[i].cantidad, DeVenta(id, false))]
    {
      var p := lineas[i].producto;
      var nuevo := cat.stock[p] - lineas[i].cantidad;
      cat.ActualizarStock(p, nuevo, DeVenta(id, false));
    }

    /** `VentaLinea.anular` for line `i`: stock drops by its quantity, logged as a void. */
    method AnularLinea(i: nat, cat: Catalogo)
      requires i < |lineas| && cat.Valid() && lineas[i].producto in cat.stock
      modifies cat`stock, cat`movimientos
      ensures cat.Valid()
      ensures cat.stock == old(cat.stock)[lineas[i].producto := old(cat.stock)[lineas[i].producto] - lineas[i].cantidad]
      ensures cat.movimientos == old(cat.movimientos) + [Movimiento(lineas[i].producto, -lineas[i].cantidad, DeVenta(id, true))]
    {
      var p := lineas[i].producto;
      var anterior := cat.stock[p];
      var nueva := anterior - lineas[i].cantidad;
      cat.ActualizarStock(p, nueva, DeVenta(id, true));
    }

    /** One step of that loop: line `i` through the operation the flag selects. */
    method MoverLinea(i: nat, cat: Catalogo, anulada: bool)
      requires i < |lineas| && cat.Valid() && lineas[i].producto in cat.stock
      modifies cat`stock, cat`movimientos
      ensures cat.Valid()
      ensures cat.movimientos == old(cat.movimientos) + [Movimiento(lineas[i].producto, -lineas[i].cantidad, DeVenta(id, anulada))]
    {
      if anulada {
        AnularLinea(i, cat);
      } else {
        CrearMovimiento(i, cat);
      }
    }

    /**
     * The loop over the lines that `crear_movimientos` and `anular` share:
     * each line lowers its product's stock by its quantity, through
     * `VentaLinea.crear_movimiento` or, when voiding, `VentaLinea.anular`.
     */
    method MoverLineas(cat: Catalogo, anulada: bool)
      requires cat.Valid() && ProductosEn(cat.productos.Keys)
      modifies cat`stock, cat`movimientos
      ensures cat.Valid()
      ensures cat.movimientos == old(cat.movimientos) + MovsVenta(lineas, DeVenta(id, anulada))
    {
      ghost var movs0 := cat.movimientos;
      var descripcion := DeVenta(id, anulada);
      var i := 0;
      while i < |lineas|
        invariant 0 <= i <= |lineas|
        invariant cat.Valid()
        invariant cat.movimientos == movs0 + MovsVenta(lineas[..i], descripcion)
      {
        ghost var previos := MovsVenta(lineas[..i], descripcion);
        ghost var m := Movimiento(lineas[i].producto, -lineas[i].cantidad, descripcion);
        ghost var antes := cat.movimientos;
        assert lineas[i].producto in cat.stock;
        MoverLinea(i, cat, anulada);
        assert cat.movimientos == antes + [m];
        MovsVentaPaso(lineas, i, descripcion);
        i := i + 1;
      }
      assert lineas[..|lineas|] == lineas;
    }

    /**
     * `crear_movimientos`: one movement per line; every product's stock
     * drops by the quantity this sale holds of it.
     */
    method CrearMovimientos(cat: Catalogo)
      requires cat.Valid() && ProductosEn(cat.productos.Keys)
      modifies cat`stock, cat`movimientos
      ensures cat.Valid()
      ensures cat.movimientos == old(cat.movimientos) + MovsVenta(lineas, DeVenta(id, false))
      ensures forall p :: p in cat.stock ==> cat.stock[p] == old(cat.stock)[p] - CantidadVendida(lineas, p)
    {
      ghost var movs0 := cat.movimientos;
      ghost var stock0 := cat.stock;
      assert MovimientosSobre(movs0, cat.inicial.Keys) && stock0 == Aplicar(cat.inicial, movs0);
      MoverLineas(cat, false);
      LibroTrasVenta(cat, stock0, movs0, lineas, DeVenta(id, false));
    }

    /**
     * `anular`: the sale gets its void date and every line lowers its
     * product's stock by its quantity, as the source writes it.
     */
    method Anular(cat: Catalogo, ahora: int)
      requires cat.Valid() && ProductosEn(cat.productos.Keys)
      modifies this`anulado, cat`stock, cat`movimientos
      ensures anulado == Some(ahora) && ComprobarAnulada()
      ensures cat.Valid()
      ensures cat.movimientos == old(cat.movimientos) + MovsVenta(lineas, DeVenta(id, true))
      ensures forall p :: p in cat.stock ==> cat.stock[p] == old(cat.stock)[p] - CantidadVendida(lineas, p)
    {
      anulado := Some(ahora);
      ghost var movs0 := cat.movimientos;
      ghost var stock0 := cat.stock;
      assert MovimientosSobre(movs0, cat.inicial.Keys) && stock0 == Aplicar(cat.inicial, movs0);
      MoverLineas(cat, true);
      LibroTrasVenta(cat, stock0, movs0, lineas, DeVenta(id, true));
    }
  }

  /** The ledger after the movements of a sale were appended. */
  lemma LibroTrasVenta(cat: Catalogo, stock0: map<int, int>, movs0: seq<Movimiento>, lineas: seq<VentaLinea>, d: Descripcion)
    requires cat.Valid() && MovimientosSobre(movs0, cat.inicial.Keys) && stock0 == Aplicar(cat.inicial, movs0)
    requires cat.movimientos == movs0 + MovsVenta(lineas, d)
    ensures forall p :: p in cat.stock ==> cat.stock[p] == stock0[p] - CantidadVendida(lineas, p)
  {
    StockTrasMovimientos(cat, stock0, movs0, MovsVenta(lineas, d));
    forall p | p in cat.stock ensures cat.stock[p] == stock0[p] - CantidadVendida(lineas, p) {
      SumaMovsVenta(lineas, d, p);
    }
  }
}
