/**
 * Tables and their turns, mesas/models.py. `Mesa` and `Turno` are classes
 * whose fields the source updates in place; the product orders of a turn
 * (`OrdenProducto` rows) are values in the turn's `ordenes` sequence, kept
 * in the order the database returns them. Every stock change of a turn goes
 * through `Turno.ActualizarStockProducto`, which refuses a change that
 * would leave the product's stock negative.
 */
module Mesas {
  import opened Comun
  import opened Inventario
  import opened Usuarios
  import G = Gastronomia

  // Table states.
  const OCUPADA := "ocupada"
  const DISPONIBLE := "disponible"

  // Turn states.
  const ABIERTO := "abierto"
  const CERRADO := "cerrado"
  const ANULADO := "anulado"

  // Order states.
  const SOLICITADO := "solicitado"
  const ENTREGADO := "entregado"

  const MENSAJE_SIN_MOZO := "No se ha encontrado el mozo del turno."
  const MENSAJE_SIN_PRODUCTO := "No se ha encontrado el producto a agregar al turno."
  const MENSAJE_ERROR_TURNO := "Ha ocurrido un error al guardar el turno."

  /** The shortage message of `actualizar_stock_producto`. */
  function MensajeSinStock(nombre: string, stock: int): string
  {
    "No hay suficiente stock para el producto " + nombre + ", quedan " + EnteroATexto(stock)
  }

  /**
   * How a call of the table layer ends when it raises: a `ValidationError`
   * with its message, a database integrity error (saving an order without
   * a product), or `MultipleObjectsReturned` from a lookup by name.
   */
  datatype Error = Validacion(mensaje: string) | Integridad | VariosResultados

  /** A product ordered in a turn. */
  datatype OrdenProducto = OrdenProducto(producto: int, estado: string, cantidad: int, entregado: int)

  /** The `entregado` entry of a requested order: absent, `""` or a number. */
  datatype Entregado = Ausente | Vacio | Valor(n: int)

  /**
   * One entry of the order list of `agregar_editar_ordenes`:
   * `orden["producto"]["id"]`, `orden["cantidad"]` and `orden["entregado"]`.
   */
  datatype OrdenPedida = OrdenPedida(producto: int, cantidad: int, entregado: Entregado)

  /** An absent or empty `entregado` counts as 0. */
  function EntregadoEfectivo(e: Entregado): (r: int)
    ensures e.Valor? ==> r == e.n
    ensures !e.Valor? ==> r == 0
  {
    match e
    case Valor(n) => n
    case _ => 0
  }

  /** `get_cantidad_restante`: what is still to be delivered. */
  function GetCantidadRestante(o: OrdenProducto): (r: int)
    ensures r + o.entregado == o.cantidad
    ensures r > 0 <==> o.entregado < o.cantidad
  {
    o.cantidad - o.entregado
  }

  /** The product ids of a requested order list (the DataFrame column). */
  function IdsPedidos(pedidas: seq<OrdenPedida>): (r: seq<int>)
    ensures |r| == |pedidas|
    ensures forall j :: 0 <= j < |pedidas| ==> r[j] == pedidas[j].producto
  {
    if pedidas == [] then [] else IdsPedidos(pedidas[..|pedidas| - 1]) + [pedidas[|pedidas| - 1].producto]
  }

  /** `get_ids_productos_anteriores`: the product id of every order. */
  function IdsProductos(ordenes: seq<OrdenProducto>): (r: seq<int>)
    ensures |r| == |ordenes|
    ensures forall j :: 0 <= j < |ordenes| ==> r[j] == ordenes[j].producto
  {
    if ordenes == [] then [] else [ordenes[0].producto] + IdsProductos(ordenes[1..])
  }

  predicate OrdenesSobre(ordenes: seq<OrdenProducto>, claves: set<int>)
  {
    forall k :: 0 <= k < |ordenes| ==> ordenes[k].producto in claves
  }

  /** `get_total`: the sum over the orders of current price times quantity. */
  function TotalOrdenes(ordenes: seq<OrdenProducto>, productos: map<int, Producto>): int
    requires OrdenesSobre(ordenes, productos.Keys)
  {
    if ordenes == [] then 0
    else
      var o := ordenes[|ordenes| - 1];
      TotalOrdenes(ordenes[..|ordenes| - 1], productos) + productos[o.producto].precioVigente * o.cantidad
  }

  /** Total quantity of product `p` over the orders. */
  function CantidadOrdenes(ordenes: seq<OrdenProducto>, p: int): int
  {
    if ordenes == [] then 0
    else
      var o := ordenes[|ordenes| - 1];
      CantidadOrdenes(ordenes[..|ordenes| - 1], p) + (if o.producto == p then o.cantidad else 0)
  }

  /** `get_ordenes_sin_entregar`, as a value: the orders with something left to deliver. */
  function SinEntregar(ordenes: seq<OrdenProducto>): (r: seq<OrdenProducto>)
    ensures forall o :: o in r <==> o in ordenes && GetCantidadRestante(o) > 0
    ensures |r| <= |ordenes|
  {
    if ordenes == [] then []
    else
      var o := ordenes[|ordenes| - 1];
      var previas := SinEntregar(ordenes[..|ordenes| - 1]);
      assert ordenes == ordenes[..|ordenes| - 1] + [o];
      previas + (if GetCantidadRestante(o) > 0 then [o] else [])
  }

  /** The index of the first order of product `p`, as `filter(...).first()` finds it. */
  function IndiceOrden(ordenes: seq<OrdenProducto>, p: int): (r: Option<nat>)
    ensures r.None? <==> forall k :: 0 <= k < |ordenes| ==> ordenes[k].producto != p
    ensures r.Some? ==> r.value < |ordenes| && ordenes[r.value].producto == p
    ensures r.Some? ==> forall k :: 0 <= k < r.value ==> ordenes[k].producto != p
  {
    if ordenes == [] then None
    else
      var n := |ordenes| - 1;
      var previo := IndiceOrden(ordenes[..n], p);
      assert forall k :: 0 <= k < n ==> ordenes[..n][k] == ordenes[k];
      if previo.Some? then previo
      else if ordenes[n].producto == p then Some(n)
      else None
  }

  /** Changing an order in place without changing its product keeps every first index. */
  lemma IndiceOrdenMismoProducto(ordenes: seq<OrdenProducto>, i: nat, o: OrdenProducto, p: int)
    requires i < |ordenes| && o.producto == ordenes[i].producto
    ensures IndiceOrden(ordenes[i := o], p) == IndiceOrden(ordenes, p)
  {
    assert forall k :: 0 <= k < |ordenes| ==> ordenes[i := o][k].producto == ordenes[k].producto;
  }

  /** Appending an order keeps the first index of every product already ordered. */
  lemma IndiceOrdenAgregar(ordenes: seq<OrdenProducto>, o: OrdenProducto, p: int)
    ensures IndiceOrden(ordenes, p).Some? ==> IndiceOrden(ordenes + [o], p) == IndiceOrden(ordenes, p)
    ensures IndiceOrden(ordenes, p).None? && o.producto == p ==> IndiceOrden(ordenes + [o], p) == Some(|ordenes|)
    ensures IndiceOrden(ordenes, p).None? && o.producto != p ==> IndiceOrden(ordenes + [o], p).None?
  {
    assert forall k :: 0 <= k < |ordenes| ==> (ordenes + [o])[k] == ordenes[k];
  }

  /** The quantity of the last requested entry of product `p` (0 when there is none). */
  function UltimaCantidad(pedidas: seq<OrdenPedida>, p: int): int
  {
    if pedidas == [] then 0
    else if pedidas[|pedidas| - 1].producto == p then pedidas[|pedidas| - 1].cantidad
    else UltimaCantidad(pedidas[..|pedidas| - 1], p)
  }

  /** The first order of `p` holds quantity `c`. */
  predicate PrimeraCon(ordenes: seq<OrdenProducto>, p: int, c: int)
  {
    IndiceOrden(ordenes, p).Some? && ordenes[IndiceOrden(ordenes, p).value].cantidad == c
  }

  /**
   * After the first `i` requested entries, the first order of each product
   * requested so far holds the quantity of its latest entry.
   */
  predicate CantidadesAplicadas(ordenes: seq<OrdenProducto>, pedidas: seq<OrdenPedida>, i: nat)
    requires i <= |pedidas|
  {
    forall j :: 0 <= j < i ==> PrimeraCon(ordenes, pedidas[j].producto, UltimaCantidad(pedidas[..i], pedidas[j].producto))
  }

  /** Every order is of a requested product. */
  predicate SoloPedidas(ordenes: seq<OrdenProducto>, nuevos: seq<int>)
  {
    forall k :: 0 <= k < |ordenes| ==> ordenes[k].producto in nuevos
  }

  /** Rewriting an order without changing its product keeps every order requested. */
  lemma SoloPedidasEditar(ordenes: seq<OrdenProducto>, nuevos: seq<int>, j: nat, o: OrdenProducto)
    requires SoloPedidas(ordenes, nuevos) && j < |ordenes| && o.producto == ordenes[j].producto
    ensures SoloPedidas(ordenes[j := o], nuevos)
  {
  }

  /** Appending an order of a requested product keeps every order requested. */
  lemma SoloPedidasAgregar(ordenes: seq<OrdenProducto>, nuevos: seq<int>, o: OrdenProducto)
    requires SoloPedidas(ordenes, nuevos) && o.producto in nuevos
    ensures SoloPedidas(ordenes + [o], nuevos)
  {
  }

  /** Editing the first order of entry `i`'s product moves the quantities one entry on. */
  lemma CantidadesEditar(ordenes: seq<OrdenProducto>, despues: seq<OrdenProducto>, pedidas: seq<OrdenPedida>, i: nat,
                         idx: nat, entregado: int)
    requires i < |pedidas| && CantidadesAplicadas(ordenes, pedidas, i)
    requires IndiceOrden(ordenes, pedidas[i].producto) == Some(idx)
    requires despues == ordenes[idx := ordenes[idx].(cantidad := pedidas[i].cantidad, entregado := entregado)]
    ensures CantidadesAplicadas(despues, pedidas, i + 1)
  {
    var o := ordenes[idx].(cantidad := pedidas[i].cantidad, entregado := entregado);
    assert pedidas[..i + 1][..i] == pedidas[..i];
    forall j | 0 <= j < i + 1
      ensures PrimeraCon(despues, pedidas[j].producto, UltimaCantidad(pedidas[..i + 1], pedidas[j].producto))
    {
      var p := pedidas[j].producto;
      IndiceOrdenMismoProducto(ordenes, idx, o, p);
    }
  }

  /** Appending the first order of entry `i`'s product moves the quantities one entry on. */
  lemma CantidadesCrear(ordenes: seq<OrdenProducto>, despues: seq<OrdenProducto>, pedidas: seq<OrdenPedida>, i: nat)
    requires i < |pedidas| && CantidadesAplicadas(ordenes, pedidas, i)
    requires IndiceOrden(ordenes, pedidas[i].producto).None?
    requires despues == ordenes + [OrdenProducto(pedidas[i].producto, SOLICITADO, pedidas[i].cantidad, 0)]
    ensures CantidadesAplicadas(despues, pedidas, i + 1)
  {
    var o := OrdenProducto(pedidas[i].producto, SOLICITADO, pedidas[i].cantidad, 0);
    assert pedidas[..i + 1][..i] == pedidas[..i];
    forall j | 0 <= j < i + 1
      ensures PrimeraCon(despues, pedidas[j].producto, UltimaCantidad(pedidas[..i + 1], pedidas[j].producto))
    {
      var p := pedidas[j].producto;
      IndiceOrdenAgregar(ordenes, o, p);
    }
  }

  /**
   * Once every entry is applied, the first order of each requested product
   * holds the quantity of its last entry.
   */
  lemma CantidadesCompletas(ordenes: seq<OrdenProducto>, pedidas: seq<OrdenPedida>)
    requires CantidadesAplicadas(ordenes, pedidas, |pedidas|)
    ensures forall j :: 0 <= j < |pedidas| ==>
      PrimeraCon(ordenes, pedidas[j].producto, UltimaCantidad(pedidas, pedidas[j].producto))
  {
    assert pedidas[..|pedidas|] == pedidas;
  }

  // ---------------------------------------------------------------------
  // What `borrar_ordenes_no_existentes` keeps and deletes

  /** The orders whose product is among the requested ids, in order. */
  function Conservadas(ordenes: seq<OrdenProducto>, nuevos: seq<int>): (r: seq<OrdenProducto>)
    ensures forall k :: 0 <= k < |r| ==> r[k].producto in nuevos
  {
    if ordenes == [] then []
    else (if ordenes[0].producto in nuevos then [ordenes[0]] else []) + Conservadas(ordenes[1..], nuevos)
  }

  /** The orders whose product is not requested, in order: those `borrar_ordenes_no_existentes` deletes. */
  function Fuera(ordenes: seq<OrdenProducto>, nuevos: seq<int>): (r: seq<OrdenProducto>)
    ensures forall k :: 0 <= k < |r| ==> r[k].producto !in nuevos
    ensures |r| <= |ordenes|
  {
    if ordenes == [] then []
    else
      var o := ordenes[|ordenes| - 1];
      Fuera(ordenes[..|ordenes| - 1], nuevos) + (if o.producto in nuevos then [] else [o])
  }

  /** With nothing requested, every order is deleted and none kept. */
  lemma {:induction false} NadaPedido(ordenes: seq<OrdenProducto>)
    ensures Fuera(ordenes, []) == ordenes
    ensures Conservadas(ordenes, []) == []
    decreases |ordenes|
  {
    NadaPedidoConservadas(ordenes);
    if ordenes != [] {
      var n := |ordenes| - 1;
      NadaPedido(ordenes[..n]);
      assert ordenes[..n] + [ordenes[n]] == ordenes;
    }
  }

  lemma {:induction false} NadaPedidoConservadas(ordenes: seq<OrdenProducto>)
    ensures Conservadas(ordenes, []) == []
    decreases |ordenes|
  {
    if ordenes != [] {
      NadaPedidoConservadas(ordenes[1..]);
    }
  }

  /** The deleted orders are orders of the catalogue when all orders are. */
  lemma {:induction false} FueraSobre(ordenes: seq<OrdenProducto>, nuevos: seq<int>, claves: set<int>)
    requires OrdenesSobre(ordenes, claves)
    ensures OrdenesSobre(Fuera(ordenes, nuevos), claves)
    decreases |ordenes|
  {
    if ordenes != [] {
      FueraSobre(ordenes[..|ordenes| - 1], nuevos, claves);
    }
  }

  /**
   * Every order is either kept or deleted: the quantities of each product
   * over the two parts add up to those over all orders.
   */
  lemma {:induction false} ParticionCantidades(ordenes: seq<OrdenProducto>, nuevos: seq<int>, p: int)
    ensures CantidadOrdenes(ordenes, p) == CantidadOrdenes(Conservadas(ordenes, nuevos), p) + CantidadOrdenes(Fuera(ordenes, nuevos), p)
    ensures |Conservadas(ordenes, nuevos)| + |Fuera(ordenes, nuevos)| == |ordenes|
    decreases |ordenes|
  {
    if ordenes != [] {
      var n := |ordenes| - 1;
      var o := ordenes[n];
      ParticionCantidades(ordenes[..n], nuevos, p);
      ConservadasPaso(ordenes, nuevos, n);
      assert ordenes[..n + 1] == ordenes;
      var c := Conservadas(ordenes[..n], nuevos);
      var f := Fuera(ordenes[..n], nuevos);
      if o.producto in nuevos {
        assert Conservadas(ordenes, nuevos) == c + [o];
        assert Fuera(ordenes, nuevos) == f + [] == f;
        CantidadUnaMas(c, o, p);
      } else {
        assert Conservadas(ordenes, nuevos) == c + [] == c;
        assert Fuera(ordenes, nuevos) == f + [o];
        CantidadUnaMas(f, o, p);
      }
    }
  }

  /** One more order adds its quantity to its own product. */
  lemma CantidadUnaMas(ordenes: seq<OrdenProducto>, o: OrdenProducto, p: int)
    ensures CantidadOrdenes(ordenes + [o], p) == CantidadOrdenes(ordenes, p) + (if o.producto == p then o.cantidad else 0)
  {
    assert (ordenes + [o])[..|ordenes|] == ordenes;
  }

  lemma {:induction false} CantidadOrdenesConcatenar(a: seq<OrdenProducto>, b: seq<OrdenProducto>, p: int)
    ensures CantidadOrdenes(a + b, p) == CantidadOrdenes(a, p) + CantidadOrdenes(b, p)
    decreases |b|
  {
    if b == [] {
      assert a + b == a;
    } else {
      assert (a + b)[..|a + b| - 1] == a + b[..|b| - 1];
      CantidadOrdenesConcatenar(a, b[..|b| - 1], p);
    }
  }

  /**
   * Deleting the unrequested orders conserves, for every product, stock
   * plus the quantity held in orders, when no stock and no quantity is
   * negative.
   */
  lemma BorrarFueraConserva(stock: map<int, int>, ordenes: seq<OrdenProducto>, nuevos: seq<int>, numero: int, fecha: string, p: int)
    requires OrdenesSobre(ordenes, stock.Keys) && p in stock
    requires forall q :: q in stock ==> stock[q] >= 0
    requires forall k :: 0 <= k < |ordenes| ==> ordenes[k].cantidad >= 0
    ensures OrdenesSobre(Fuera(ordenes, nuevos), stock.Keys)
    ensures Aplicar(stock, MovsBorrarOrdenes(stock, Fuera(ordenes, nuevos), numero, fecha))[p]
            + CantidadOrdenes(Conservadas(ordenes, nuevos), p)
            == stock[p] + CantidadOrdenes(ordenes, p)
  {
    var fuera := Fuera(ordenes, nuevos);
    FueraSobre(ordenes, nuevos, stock.Keys);
    FueraCantidades(ordenes, nuevos);
    BorrarOrdenesRestituye(stock, fuera, numero, fecha, p);
    AplicarEsSuma(stock, MovsBorrarOrdenes(stock, fuera, numero, fecha), p);
    ParticionCantidades(ordenes, nuevos, p);
  }

  /** The deleted orders are orders of the list, so their quantities are not negative when none is. */
  lemma {:induction false} FueraCantidades(ordenes: seq<OrdenProducto>, nuevos: seq<int>)
    requires forall k :: 0 <= k < |ordenes| ==> ordenes[k].cantidad >= 0
    ensures forall k :: 0 <= k < |Fuera(ordenes, nuevos)| ==> Fuera(ordenes, nuevos)[k].cantidad >= 0
    decreases |ordenes|
  {
    if ordenes != [] {
      FueraCantidades(ordenes[..|ordenes| - 1], nuevos);
    }
  }

  /** The kept orders of one more order. */
  lemma ConservadasPaso(ordenes: seq<OrdenProducto>, nuevos: seq<int>, k: nat)
    requires k < |ordenes|
    ensures Conservadas(ordenes[..k + 1], nuevos)
      == Conservadas(ordenes[..k], nuevos) + (if ordenes[k].producto in nuevos then [ordenes[k]] else [])
  {
    assert ordenes[..k + 1] == ordenes[..k] + [ordenes[k]];
    ConcatenarConservadas(ordenes[..k], [ordenes[k]], nuevos);
    assert [ordenes[k]][1..] == [];
  }

  lemma {:induction false} ConcatenarConservadas(a: seq<OrdenProducto>, b: seq<OrdenProducto>, nuevos: seq<int>)
    ensures Conservadas(a + b, nuevos) == Conservadas(a, nuevos) + Conservadas(b, nuevos)
    decreases |a|
  {
    if a == [] {
      assert a + b == b;
    } else {
      assert (a + b)[1..] == a[1..] + b;
      ConcatenarConservadas(a[1..], b, nuevos);
    }
  }

  /**
   * When the orders are the kept ones of a prefix followed by the rest, the
   * first order of an unrequested product at the head of the rest is that
   * head.
   */
  lemma IndiceTrasConservadas(conservadas: seq<OrdenProducto>, resto: seq<OrdenProducto>, nuevos: seq<int>, p: int)
    requires forall k :: 0 <= k < |conservadas| ==> conservadas[k].producto in nuevos
    requires resto != [] && resto[0].producto == p && p !in nuevos
    ensures IndiceOrden(conservadas + resto, p) == Some(|conservadas|)
  {
    var t := conservadas + resto;
    assert t[|conservadas|] == resto[0];
    assert forall k :: 0 <= k < |conservadas| ==> t[k] == conservadas[k];
  }

  /** Deleting an order keeps every remaining order of a catalogue product. */
  lemma QuitarSobre(ordenes: seq<OrdenProducto>, claves: set<int>, j: nat)
    requires OrdenesSobre(ordenes, claves) && j < |ordenes|
    ensures OrdenesSobre(ordenes[..j] + ordenes[j + 1..], claves)
  {
    var resto := ordenes[..j] + ordenes[j + 1..];
    forall k | 0 <= k < |resto| ensures resto[k].producto in claves {
      if k < j { assert resto[k] == ordenes[k]; } else { assert resto[k] == ordenes[k + 1]; }
    }
  }

  // ---------------------------------------------------------------------
  // What `borrar_ordenes` writes

  /**
   * The movements of deleting `ordenes` one after the other from stock
   * `stock`: each order gives its quantity back, unless it is 0 or the
   * product's stock at that point would end negative.
   */
  function MovsBorrarOrdenes(stock: map<int, int>, ordenes: seq<OrdenProducto>, numero: int, fecha: string): (r: seq<Movimiento>)
    requires OrdenesSobre(ordenes, stock.Keys)
    ensures MovimientosSobre(r, stock.Keys)
  {
    if ordenes == [] then []
    else
      var previos := MovsBorrarOrdenes(stock, ordenes[..|ordenes| - 1], numero, fecha);
      var o := ordenes[|ordenes| - 1];
      var actual := Aplicar(stock, previos)[o.producto];
      var cola := if o.cantidad != 0 && actual + o.cantidad >= 0
                  then [Movimiento(o.producto, o.cantidad, DeOrden("borrado", numero, fecha))] else [];
      assert forall i :: 0 <= i < |cola| ==> cola[i].producto == o.producto;
      previos + cola
  }

  lemma MovsBorrarOrdenesPaso(stock: map<int, int>, ordenes: seq<OrdenProducto>, numero: int, fecha: string, k: nat)
    requires OrdenesSobre(ordenes, stock.Keys) && k < |ordenes|
    ensures OrdenesSobre(ordenes[..k], stock.Keys) && OrdenesSobre(ordenes[..k + 1], stock.Keys)
    ensures MovsBorrarOrdenes(stock, ordenes[..k + 1], numero, fecha)
      == MovsBorrarOrdenes(stock, ordenes[..k], numero, fecha)
         + (if ordenes[k].cantidad != 0
               && Aplicar(stock, MovsBorrarOrdenes(stock, ordenes[..k], numero, fecha))[ordenes[k].producto] + ordenes[k].cantidad >= 0
            then [Movimiento(ordenes[k].producto, ordenes[k].cantidad, DeOrden("borrado", numero, fecha))] else [])
  {
    assert ordenes[..k + 1][..k] == ordenes[..k];
  }

  /**
   * When no stock is negative and no quantity is negative, deleting the
   * orders gives back to every product exactly the quantity its orders
   * held.
   */
  lemma {:induction false} BorrarOrdenesRestituye(stock: map<int, int>, ordenes: seq<OrdenProducto>, numero: int, fecha: string, p: int)
    requires OrdenesSobre(ordenes, stock.Keys)
    requires forall q :: q in stock ==> stock[q] >= 0
    requires forall k :: 0 <= k < |ordenes| ==> ordenes[k].cantidad >= 0
    ensures SumaMovimientos(MovsBorrarOrdenes(stock, ordenes, numero, fecha), p) == CantidadOrdenes(ordenes, p)
    decreases |ordenes|
  {
    if ordenes != [] {
      var n := |ordenes| - 1;
      var o := ordenes[n];
      var previos := MovsBorrarOrdenes(stock, ordenes[..n], numero, fecha);
      BorrarOrdenesRestituye(stock, ordenes[..n], numero, fecha, p);
      BorrarOrdenesRestituye(stock, ordenes[..n], numero, fecha, o.producto);
      CantidadOrdenesNoNegativa(ordenes[..n], o.producto);
      AplicarEsSuma(stock, previos, o.producto);
      var devuelve := o.cantidad != 0 && Aplicar(stock, previos)[o.producto] + o.cantidad >= 0;
      assert devuelve || o.cantidad == 0;
      var cola := if devuelve then [Movimiento(o.producto, o.cantidad, DeOrden("borrado", numero, fecha))] else [];
      SumaUnico(devuelve, Movimiento(o.producto, o.cantidad, DeOrden("borrado", numero, fecha)), p);
      SumaMovimientosConcatenar(previos, cola, p);
    }
  }

  /** The sum of at most one movement. */
  lemma SumaUnico(hay: bool, m: Movimiento, p: int)
    ensures SumaMovimientos(if hay then [m] else [], p) == (if hay && m.producto == p then m.cantidad else 0)
  {
    if hay {
      assert [m][..0] == [];
    }
  }

  lemma {:induction false} CantidadOrdenesNoNegativa(ordenes: seq<OrdenProducto>, p: int)
    requires forall k :: 0 <= k < |ordenes| ==> ordenes[k].cantidad >= 0
    ensures CantidadOrdenes(ordenes, p) >= 0
    decreases |ordenes|
  {
    if ordenes != [] {
      CantidadOrdenesNoNegativa(ordenes[..|ordenes| - 1], p);
    }
  }

  /** Every product's stock either kept its value or is not negative. */
  predicate NoNegativo(antes: map<int, int>, despues: map<int, int>)
  {
    forall p :: p in despues ==> p in antes && (despues[p] == antes[p] || despues[p] >= 0)
  }

  /**
   * What `actualizar_stock_producto` does to the catalogue for a change of
   * `delta` to product `p`: nothing when the change is 0 or would leave the
   * stock negative, otherwise the stock moves by `delta` and the move is
   * logged with description `d`.
   */
  ghost predicate Movido(stock0: map<int, int>, movs0: seq<Movimiento>, p: int, delta: int, d: Descripcion,
                         stock: map<int, int>, movs: seq<Movimiento>)
    requires p in stock0
  {
    if delta != 0 && stock0[p] + delta >= 0 then stock == stock0[p := stock0[p] + delta] && movs == movs0 + [Movimiento(p, delta, d)]
    else stock == stock0 && movs == movs0
  }

  /** A log that extends an extension of `a` extends `a`. */
  lemma PrefijoTransitivo(a: seq<Movimiento>, b: seq<Movimiento>, c: seq<Movimiento>)
    requires a <= b && b <= c
    ensures a <= c
  {
  }

  /** Two steps that never drive stock negative make one that does not either. */
  lemma NoNegativoTransitivo(a: map<int, int>, b: map<int, int>, c: map<int, int>)
    requires NoNegativo(a, b) && NoNegativo(b, c)
    ensures NoNegativo(a, c)
  {
  }

  /**
   * One step of `borrar_ordenes`: deleting order `k` as `Borrar` does
   * extends the log and the stock by the next movement of
   * `MovsBorrarOrdenes`.
   */
  lemma BorrarOrdenesSiguiente(stock0: map<int, int>, movs0: seq<Movimiento>, todas: seq<OrdenProducto>, numero: int,
                               fecha: string, k: nat, o: OrdenProducto, stockAntes: map<int, int>, movsAntes: seq<Movimiento>,
                               stockDespues: map<int, int>, movsDespues: seq<Movimiento>)
    requires OrdenesSobre(todas, stock0.Keys) && k < |todas| && todas[k] == o
    requires movsAntes == movs0 + MovsBorrarOrdenes(stock0, todas[..k], numero, fecha)
    requires stockAntes == Aplicar(stock0, MovsBorrarOrdenes(stock0, todas[..k], numero, fecha))
    requires o.cantidad != 0 && stockAntes[o.producto] + o.cantidad >= 0 ==>
      stockDespues == stockAntes[o.producto := stockAntes[o.producto] + o.cantidad]
      && movsDespues == movsAntes + [Movimiento(o.producto, o.cantidad, DeOrden("borrado", numero, fecha))]
    requires o.cantidad == 0 || stockAntes[o.producto] + o.cantidad < 0 ==>
      stockDespues == stockAntes && movsDespues == movsAntes
    ensures OrdenesSobre(todas[..k + 1], stock0.Keys)
    ensures movsDespues == movs0 + MovsBorrarOrdenes(stock0, todas[..k + 1], numero, fecha)
    ensures stockDespues == Aplicar(stock0, MovsBorrarOrdenes(stock0, todas[..k + 1], numero, fecha))
  {
    var previos := MovsBorrarOrdenes(stock0, todas[..k], numero, fecha);
    var m := Movimiento(o.producto, o.cantidad, DeOrden("borrado", numero, fecha));
    MovsBorrarOrdenesPaso(stock0, todas, numero, fecha, k);
    if o.cantidad != 0 && stockAntes[o.producto] + o.cantidad >= 0 {
      assert MovsBorrarOrdenes(stock0, todas[..k + 1], numero, fecha) == previos + [m];
      AplicarUno(stock0, previos, m);
    } else {
      assert MovsBorrarOrdenes(stock0, todas[..k + 1], numero, fecha) == previos + [];
      assert previos + [] == previos;
    }
  }

  /** `Movido` spelled out case by case. */
  lemma MovidoCasos(stock0: map<int, int>, movs0: seq<Movimiento>, p: int, delta: int, d: Descripcion,
                    stock: map<int, int>, movs: seq<Movimiento>)
    requires p in stock0 && Movido(stock0, movs0, p, delta, d, stock, movs)
    ensures delta != 0 && stock0[p] + delta >= 0 ==> stock == stock0[p := stock0[p] + delta] && movs == movs0 + [Movimiento(p, delta, d)]
    ensures delta == 0 || stock0[p] + delta < 0 ==> stock == stock0 && movs == movs0
  {
  }

  /**
   * The state after the first `k` ids of `borrar_ordenes_no_existentes`:
   * the unrequested orders among the first `k` are deleted, in order, and
   * logged as `MovsBorrarOrdenes` says; the rest are untouched.
   */
  ghost predicate TrasBorrarFuera(ordenes0: seq<OrdenProducto>, nuevos: seq<int>, k: nat, stock0: map<int, int>,
                                  movs0: seq<Movimiento>, numero: int, fecha: string,
                                  ordenes: seq<OrdenProducto>, stock: map<int, int>, movs: seq<Movimiento>)
  {
    && k <= |ordenes0|
    && ordenes == Conservadas(ordenes0[..k], nuevos) + ordenes0[k..]
    && OrdenesSobre(ordenes0, stock0.Keys)
    && OrdenesSobre(Fuera(ordenes0[..k], nuevos), stock0.Keys)
    && movs == movs0 + MovsBorrarOrdenes(stock0, Fuera(ordenes0[..k], nuevos), numero, fecha)
    && stock == Aplicar(stock0, MovsBorrarOrdenes(stock0, Fuera(ordenes0[..k], nuevos), numero, fecha))
  }

  /** The first order of the k-th id, when it is not requested, is order `k` itself. */
  lemma IndiceFuera(ordenes0: seq<OrdenProducto>, nuevos: seq<int>, k: nat, stock0: map<int, int>,
                    movs0: seq<Movimiento>, numero: int, fecha: string,
                    ordenes: seq<OrdenProducto>, stock: map<int, int>, movs: seq<Movimiento>)
    requires k < |ordenes0| && ordenes0[k].producto !in nuevos
    requires TrasBorrarFuera(ordenes0, nuevos, k, stock0, movs0, numero, fecha, ordenes, stock, movs)
    ensures IndiceOrden(ordenes, ordenes0[k].producto) == Some(|Conservadas(ordenes0[..k], nuevos)|)
    ensures ordenes[|Conservadas(ordenes0[..k], nuevos)|] == ordenes0[k]
  {
    IndiceTrasConservadas(Conservadas(ordenes0[..k], nuevos), ordenes0[k..], nuevos, ordenes0[k].producto);
  }

  /** An id that is requested deletes nothing and moves the state one id on. */
  lemma TrasConservarPaso(ordenes0: seq<OrdenProducto>, nuevos: seq<int>, k: nat, stock0: map<int, int>,
                          movs0: seq<Movimiento>, numero: int, fecha: string,
                          ordenes: seq<OrdenProducto>, stock: map<int, int>, movs: seq<Movimiento>)
    requires k < |ordenes0| && ordenes0[k].producto in nuevos
    requires TrasBorrarFuera(ordenes0, nuevos, k, stock0, movs0, numero, fecha, ordenes, stock, movs)
    ensures TrasBorrarFuera(ordenes0, nuevos, k + 1, stock0, movs0, numero, fecha, ordenes, stock, movs)
  {
    ConservadasPaso(ordenes0, nuevos, k);
    assert ordenes0[..k + 1][..k] == ordenes0[..k];
    assert ordenes0[k..] == [ordenes0[k]] + ordenes0[k + 1..];
    assert Fuera(ordenes0[..k + 1], nuevos) == Fuera(ordenes0[..k], nuevos) + [] == Fuera(ordenes0[..k], nuevos);
  }

  /** Before the first id nothing is deleted; after the last, the unrequested orders all are. */
  lemma TrasBorrarFueraExtremos(ordenes0: seq<OrdenProducto>, nuevos: seq<int>, stock0: map<int, int>,
                                movs0: seq<Movimiento>, numero: int, fecha: string,
                                ordenes: seq<OrdenProducto>, stock: map<int, int>, movs: seq<Movimiento>)
    requires OrdenesSobre(ordenes0, stock0.Keys)
    ensures TrasBorrarFuera(ordenes0, nuevos, 0, stock0, movs0, numero, fecha, ordenes0, stock0, movs0)
    ensures TrasBorrarFuera(ordenes0, nuevos, |ordenes0|, stock0, movs0, numero, fecha, ordenes, stock, movs) ==>
      && ordenes == Conservadas(ordenes0, nuevos)
      && OrdenesSobre(Fuera(ordenes0, nuevos), stock0.Keys)
      && movs == movs0 + MovsBorrarOrdenes(stock0, Fuera(ordenes0, nuevos), numero, fecha)
      && stock == Aplicar(stock0, MovsBorrarOrdenes(stock0, Fuera(ordenes0, nuevos), numero, fecha))
  {
    assert ordenes0[..0] == [] && ordenes0[0..] == ordenes0;
    assert movs0 + [] == movs0;
    assert ordenes0[..|ordenes0|] == ordenes0 && ordenes0[|ordenes0|..] == [];
    assert Conservadas(ordenes0, nuevos) + [] == Conservadas(ordenes0, nuevos);
  }

  /**
   * Deleting order `k`, not requested, as `Borrar` does moves the state
   * one id on.
   */
  lemma TrasBorrarFueraPaso(ordenes0: seq<OrdenProducto>, nuevos: seq<int>, k: nat, stock0: map<int, int>,
                            movs0: seq<Movimiento>, numero: int, fecha: string,
                            ordenes: seq<OrdenProducto>, stock: map<int, int>, movs: seq<Movimiento>,
                            ordenes': seq<OrdenProducto>, stock': map<int, int>, movs': seq<Movimiento>)
    requires k < |ordenes0| && ordenes0[k].producto !in nuevos
    requires TrasBorrarFuera(ordenes0, nuevos, k, stock0, movs0, numero, fecha, ordenes, stock, movs)
    requires var j := |Conservadas(ordenes0[..k], nuevos)|;
      && ordenes0[k].producto in stock
      && ordenes' == ordenes[..j] + ordenes[j + 1..]
      && Movido(stock, movs, ordenes0[k].producto, ordenes0[k].cantidad, DeOrden("borrado", numero, fecha), stock', movs')
    ensures TrasBorrarFuera(ordenes0, nuevos, k + 1, stock0, movs0, numero, fecha, ordenes', stock', movs')
  {
    var previas := Fuera(ordenes0[..k], nuevos);
    FueraPaso(ordenes0, nuevos, k);
    QuitarPrimeraFuera(Conservadas(ordenes0[..k], nuevos), ordenes0, k, ordenes, ordenes');
    FueraSobre(ordenes0[..k + 1], nuevos, stock0.Keys);
    BorrarUnaMas(stock0, movs0, previas, ordenes0[k], numero, fecha, stock, movs, stock', movs');
  }

  /** Deleting one more order as `Borrar` does extends the deletion log by that order. */
  lemma BorrarUnaMas(stock0: map<int, int>, movs0: seq<Movimiento>, previas: seq<OrdenProducto>, o: OrdenProducto,
                     numero: int, fecha: string, stock: map<int, int>, movs: seq<Movimiento>,
                     stock': map<int, int>, movs': seq<Movimiento>)
    requires OrdenesSobre(previas + [o], stock0.Keys)
    requires OrdenesSobre(previas, stock0.Keys)
    requires movs == movs0 + MovsBorrarOrdenes(stock0, previas, numero, fecha)
    requires stock == Aplicar(stock0, MovsBorrarOrdenes(stock0, previas, numero, fecha))
    requires o.producto in stock
    requires Movido(stock, movs, o.producto, o.cantidad, DeOrden("borrado", numero, fecha), stock', movs')
    ensures movs' == movs0 + MovsBorrarOrdenes(stock0, previas + [o], numero, fecha)
    ensures stock' == Aplicar(stock0, MovsBorrarOrdenes(stock0, previas + [o], numero, fecha))
  {
    var todas := previas + [o];
    assert todas[..|previas|] == previas && todas[..|previas| + 1] == todas && todas[|previas|] == o;
    MovidoCasos(stock, movs, o.producto, o.cantidad, DeOrden("borrado", numero, fecha), stock', movs');
    BorrarOrdenesSiguiente(stock0, movs0, todas, numero, fecha, |previas|, o, stock, movs, stock', movs');
  }

  /** An unrequested order joins the deleted ones, at the end, and leaves the kept ones alone. */
  lemma FueraPaso(ordenes0: seq<OrdenProducto>, nuevos: seq<int>, k: nat)
    requires k < |ordenes0| && ordenes0[k].producto !in nuevos
    ensures Conservadas(ordenes0[..k + 1], nuevos) == Conservadas(ordenes0[..k], nuevos)
    ensures Fuera(ordenes0[..k + 1], nuevos) == Fuera(ordenes0[..k], nuevos) + [ordenes0[k]]
    ensures var todas := Fuera(ordenes0[..k + 1], nuevos);
      var previas := Fuera(ordenes0[..k], nuevos);
      todas[..|previas|] == previas && todas[..|previas| + 1] == todas
  {
    ConservadasPaso(ordenes0, nuevos, k);
    assert ordenes0[..k + 1][..k] == ordenes0[..k];
    var todas := Fuera(ordenes0[..k + 1], nuevos);
    var previas := Fuera(ordenes0[..k], nuevos);
    assert todas == previas + [ordenes0[k]];
    assert todas[..|previas|] == previas;
  }

  /** Removing the head of the rest after the kept orders leaves the kept orders and the tail. */
  lemma QuitarPrimeraFuera(conservadas: seq<OrdenProducto>, ordenes0: seq<OrdenProducto>, k: nat,
                           ordenes: seq<OrdenProducto>, ordenes': seq<OrdenProducto>)
    requires k < |ordenes0| && ordenes == conservadas + ordenes0[k..]
    requires ordenes' == ordenes[..|conservadas|] + ordenes[|conservadas| + 1..]
    ensures ordenes' == conservadas + ordenes0[k + 1..]
  {
    assert ordenes[..|conservadas|] == conservadas;
    assert ordenes[|conservadas| + 1..] == ordenes0[k + 1..];
  }

  // ---------------------------------------------------------------------

  /** A table of the restaurant. */
  class Mesa {
    const id: nat
    var numero: int
    var estado: string
    var descripcion: string
    /** How many turns the table has had. */
    var turnos: nat

    /** `Mesa(numero=..., descripcion=...)` saved under key `id`: available, no turn yet. */
    constructor (id: nat, numero: int, descripcion: string)
      ensures this.id == id && this.numero == numero && this.descripcion == descripcion
      ensures estado == DISPONIBLE && turnos == 0
      ensures ComprobarPuedeBorrarse() && ComprobarPuedeEditarse() && Consistente()
    {
      this.id := id;
      this.numero := numero;
      this.descripcion := descripcion;
      estado := DISPONIBLE;
      turnos := 0;
    }

    /**
     * The table is either available or occupied, and a table that never
     * had a turn is available: only opening a turn occupies it.
     */
    ghost predicate Consistente()
      reads this
    {
      && (estado == DISPONIBLE || estado == OCUPADA)
      && (turnos == 0 ==> estado == DISPONIBLE)
    }

    /** `comprobar_puede_borrarse`: a table that never had a turn. */
    function ComprobarPuedeBorrarse(): (r: bool)
      reads this
      ensures Consistente() && r ==> ComprobarPuedeEditarse()
    {
      turnos == 0
    }

    /** `comprobar_puede_editarse`: an available table. */
    function ComprobarPuedeEditarse(): (r: bool)
      reads this
      ensures Consistente() ==> (r <==> estado != OCUPADA)
    {
      estado == DISPONIBLE
    }

    /**
     * `crear_turno(nombre)`: opens a turn served by the only user called
     * `nombre` and marks the table occupied. No such user raises the
     * validation error; several raise `MultipleObjectsReturned`; in both
     * cases nothing changes.
     */
    method CrearTurno(nombre: string, usuarios: seq<Usuario>, idTurno: nat, creador: Usuario, ahora: int)
      returns (r: Result<Turno, Error>)
      modifies this`estado, this`turnos
      ensures |Llamados(usuarios, nombre)| == 0 ==> r == Err(Validacion(MENSAJE_SIN_MOZO))
      ensures |Llamados(usuarios, nombre)| > 1 ==> r == Err(VariosResultados)
      ensures r.Err? ==> estado == old(estado) && turnos == old(turnos)
      ensures |Llamados(usuarios, nombre)| == 1 ==> r.Ok?
      ensures r.Ok? ==> fresh(r.value) && r.value.mesa == this && r.value.mozo == Llamados(usuarios, nombre)[0]
      ensures r.Ok? ==> r.value.id == idTurno && r.value.creador == creador && r.value.horaInicio == ahora
      ensures r.Ok? ==> r.value.estado == ABIERTO && r.value.horaFin == None && r.value.venta == null && r.value.ordenes == []
      ensures r.Ok? ==> estado == OCUPADA && turnos == old(turnos) + 1
      ensures r.Ok? ==> !ComprobarPuedeBorrarse() && !ComprobarPuedeEditarse() && r.value.ComprobarAbierto()
      ensures r.Ok? ==> Consistente() && r.value.Consistente()
    {
      var encontrados := Llamados(usuarios, nombre);
      if |encontrados| > 1 {
        return Err(VariosResultados);
      }
      if |encontrados| == 0 {
        return Err(Validacion(MENSAJE_SIN_MOZO));
      }
      var mozo := encontrados[0];
      var turno := new Turno(idTurno, this, mozo, creador, ahora);
      turnos := turnos + 1;
      estado := OCUPADA;
      return Ok(turno);
    }
  }

  /** The users whose first name is `nombre`, in table order. */
  function Llamados(usuarios: seq<Usuario>, nombre: string): (r: seq<Usuario>)
    reads set u | u in usuarios
    ensures forall k :: 0 <= k < |r| ==> r[k] in usuarios && r[k].nombre == nombre
    ensures forall k :: 0 <= k < |usuarios| && usuarios[k].nombre == nombre ==> usuarios[k] in r
  {
    if usuarios == [] then []
    else
      var u := usuarios[|usuarios| - 1];
      var previos := Llamados(usuarios[..|usuarios| - 1], nombre);
      assert usuarios == usuarios[..|usuarios| - 1] + [u];
      previos + (if u.nombre == nombre then [u] else [])
  }

  // ---------------------------------------------------------------------

  /** A turn of a table: who serves it, what was ordered, and its sale. */
  class Turno {
    const id: nat
    var mesa: Mesa
    var venta: G.Venta?
    var mozo: Usuario?
    /** `auditoria_creador`, the user who opened the turn. */
    var creador: Usuario
    var estado: string
    var horaInicio: int
    var horaFin: Option<int>
    var ordenes: seq<OrdenProducto>

    constructor (id: nat, mesa: Mesa, mozo: Usuario?, creador: Usuario, ahora: int)
      ensures this.id == id && this.mesa == mesa && this.mozo == mozo && this.creador == creador
      ensures horaInicio == ahora && estado == ABIERTO && horaFin == None && venta == null && ordenes == []
      ensures Consistente()
    {
      this.id := id;
      this.mesa := mesa;
      this.mozo := mozo;
      this.creador := creador;
      horaInicio := ahora;
      estado := ABIERTO;
      horaFin := None;
      venta := null;
      ordenes := [];
    }

    /**
     * A turn is open, closed or voided, and it has a closing time exactly
     * when it is no longer open: only closing and voiding set one.
     */
    ghost predicate Consistente()
      reads this
    {
      && (estado == ABIERTO || estado == CERRADO || estado == ANULADO)
      && (horaFin.None? <==> estado == ABIERTO)
    }

    /** `comprobar_abierto`: no closing time and state abierto. */
    function ComprobarAbierto(): (r: bool)
      reads this
      ensures r ==> !ComprobarCerrado() && !ComprobarAnulado()
      ensures Consistente() ==> (r <==> !ComprobarCerrado() && !ComprobarAnulado())
    {
      horaFin.None? && estado == ABIERTO
    }

    /** `comprobar_cerrado`: a closing time and state cerrado. */
    function ComprobarCerrado(): (r: bool)
      reads this
      ensures r ==> !ComprobarAnulado()
      ensures Consistente() ==> (r <==> estado == CERRADO)
    {
      horaFin.Some? && estado == CERRADO
    }

    /** `comprobar_anulado`: state anulado. */
    function ComprobarAnulado(): (r: bool)
      reads this
      ensures Consistente() && r ==> horaFin.Some?
    {
      estado == ANULADO
    }

    /** `comprobar_puede_cerrar`: at least one order. */
    function ComprobarPuedeCerrar(): (r: bool)
      reads this
      ensures !r ==> SinEntregar(ordenes) == [] && IdsProductos(ordenes) == []
    {
      |ordenes| > 0
    }

    /** Every order is of a product of the catalogue. */
    ghost predicate ProductosEn(claves: set<int>)
      reads this
    {
      OrdenesSobre(ordenes, claves)
    }

    /** `get_total`: current price times quantity, summed over the orders. */
    method GetTotal(cat: Catalogo) returns (total: int)
      requires ProductosEn(cat.productos.Keys)
      ensures total == TotalOrdenes(ordenes, cat.productos)
    {
      total := 0;
      var i := 0;
      while i < |ordenes|
        invariant 0 <= i <= |ordenes|
        invariant total == TotalOrdenes(ordenes[..i], cat.productos)
      {
        assert ordenes[..i + 1][..i] == ordenes[..i];
        var o := ordenes[i];
        total := total + cat.Precio(o.producto) * o.cantidad;
        i := i + 1;
      }
      assert ordenes[..|ordenes|] == ordenes;
    }

    /** `get_ordenes_sin_entregar`: the orders with a positive quantity still to deliver. */
    method GetOrdenesSinEntregar() returns (entregar: seq<OrdenProducto>)
      ensures entregar == SinEntregar(ordenes)
    {
      entregar := [];
      var i := 0;
      while i < |ordenes|
        invariant 0 <= i <= |ordenes|
        invariant entregar == SinEntregar(ordenes[..i])
      {
        assert ordenes[..i + 1][..i] == ordenes[..i];
        var restante := GetCantidadRestante(ordenes[i]);
        if restante > 0 {
          entregar := entregar + [ordenes[i]];
        }
        i := i + 1;
      }
      assert ordenes[..|ordenes|] == ordenes;
    }

    /**
     * `OrdenProducto.actualizar_stock_producto` for an order of `producto`:
     * an unchanged quantity writes nothing; otherwise the stock would
     * become `stock + anterior - nueva`, which is written and logged when
     * it is not negative and refused with one error message when it is.
     */
    method ActualizarStockProducto(producto: int, cantidadNueva: int, cantidadAnterior: int, accion: string, fecha: string,
                                   cat: Catalogo) returns (errores: seq<string>)
      requires cat.Valid() && producto in cat.stock
      modifies cat`stock, cat`movimientos
      ensures cat.Valid()
      ensures cantidadNueva == cantidadAnterior ==>
        errores == [] && cat.stock == old(cat.stock) && cat.movimientos == old(cat.movimientos)
      ensures cantidadNueva != cantidadAnterior && old(cat.stock)[producto] + cantidadAnterior - cantidadNueva < 0 ==>
        errores == [MensajeSinStock(cat.productos[producto].nombre, old(cat.stock)[producto])]
        && cat.stock == old(cat.stock) && cat.movimientos == old(cat.movimientos)
      ensures cantidadNueva != cantidadAnterior && old(cat.stock)[producto] + cantidadAnterior - cantidadNueva >= 0 ==>
        errores == []
        && cat.stock == old(cat.stock)[producto := old(cat.stock)[producto] + cantidadAnterior - cantidadNueva]
        && cat.movimientos == old(cat.movimientos)
           + [Movimiento(producto, cantidadAnterior - cantidadNueva, DeOrden(accion, mesa.numero, fecha))]
      ensures NoNegativo(old(cat.stock), cat.stock)
    {
      errores := [];
      if cantidadNueva == cantidadAnterior {
        return [];
      }
      var stock := cat.stock[producto];
      var actualizado := stock + cantidadAnterior - cantidadNueva;
      if actualizado < 0 {
        errores := errores + [MensajeSinStock(cat.productos[producto].nombre, stock)];
        return errores;
      }
      cat.ActualizarStock(producto, actualizado, DeOrden(accion, mesa.numero, fecha));
    }

    /**
     * `OrdenProducto.borrar` for order `i`: its whole quantity goes back to
     * stock (refused, silently, when the stock would still be negative) and
     * the order is deleted.
     */
    method Borrar(i: nat, fecha: string, cat: Catalogo)
      requires i < |ordenes| && cat.Valid() && ordenes[i].producto in cat.stock
      modifies this`ordenes, cat`stock, cat`movimientos
      ensures ordenes == old(ordenes)[..i] + old(ordenes)[i + 1..]
      ensures cat.Valid()
      ensures NoNegativo(old(cat.stock), cat.stock)
      ensures Movido(old(cat.stock), old(cat.movimientos), old(ordenes)[i].producto, old(ordenes)[i].cantidad,
                     DeOrden("borrado", mesa.numero, fecha), cat.stock, cat.movimientos)
    {
      var o := ordenes[i];
      var _ := ActualizarStockProducto(o.producto, 0, o.cantidad, "borrado", fecha, cat);
      ordenes := ordenes[..i] + ordenes[i + 1..];
    }

    /**
     * `borrar_ordenes`: deletes every order, first to last, each giving its
     * quantity back as `Borrar` does.
     */
    method BorrarOrdenes(fecha: string, cat: Catalogo)
      requires cat.Valid() && ProductosEn(cat.productos.Keys)
      modifies this`ordenes, cat`stock, cat`movimientos
      ensures ordenes == []
      ensures cat.Valid()
      ensures NoNegativo(old(cat.stock), cat.stock)
      ensures OrdenesSobre(old(ordenes), old(cat.stock).Keys)
      ensures cat.movimientos == old(cat.movimientos) + MovsBorrarOrdenes(old(cat.stock), old(ordenes), mesa.numero, fecha)
      ensures cat.stock == Aplicar(old(cat.stock), MovsBorrarOrdenes(old(cat.stock), old(ordenes), mesa.numero, fecha))
    {
      var todas := ordenes;
      ghost var stock0 := cat.stock;
      ghost var movs0 := cat.movimientos;
      var k := 0;
      while k < |todas|
        invariant 0 <= k <= |todas|
        invariant ordenes == todas[k..]
        invariant cat.Valid()
        invariant OrdenesSobre(todas, stock0.Keys)
        invariant NoNegativo(stock0, cat.stock)
        invariant cat.movimientos == movs0 + MovsBorrarOrdenes(stock0, todas[..k], mesa.numero, fecha)
        invariant cat.stock == Aplicar(stock0, MovsBorrarOrdenes(stock0, todas[..k], mesa.numero, fecha))
      {
        BorrarSiguiente(stock0, movs0, todas, k, fecha, cat);
        k := k + 1;
      }
      assert todas[..|todas|] == todas;
    }

    /** One turn of the loop of `borrar_ordenes`: the first remaining order, `todas[k]`, is deleted. */
    method BorrarSiguiente(ghost stock0: map<int, int>, ghost movs0: seq<Movimiento>, ghost todas: seq<OrdenProducto>,
                           ghost k: nat, fecha: string, cat: Catalogo)
      requires k < |todas| && ordenes == todas[k..]
      requires cat.Valid() && OrdenesSobre(todas, stock0.Keys) && NoNegativo(stock0, cat.stock)
      requires cat.movimientos == movs0 + MovsBorrarOrdenes(stock0, todas[..k], mesa.numero, fecha)
      requires cat.stock == Aplicar(stock0, MovsBorrarOrdenes(stock0, todas[..k], mesa.numero, fecha))
      modifies this`ordenes, cat`stock, cat`movimientos
      ensures ordenes == todas[k + 1..]
      ensures cat.Valid() && NoNegativo(stock0, cat.stock)
      ensures OrdenesSobre(todas[..k + 1], stock0.Keys)
      ensures cat.movimientos == movs0 + MovsBorrarOrdenes(stock0, todas[..k + 1], mesa.numero, fecha)
      ensures cat.stock == Aplicar(stock0, MovsBorrarOrdenes(stock0, todas[..k + 1], mesa.numero, fecha))
    {
      ghost var stockAntes := cat.stock;
      ghost var movsAntes := cat.movimientos;
      ghost var restantes := ordenes;
      assert restantes[0] == todas[k] && todas[k].producto in stock0;
      assert stockAntes.Keys == stock0.Keys;
      Borrar(0, fecha, cat);
      assert ordenes == restantes[1..] == todas[k + 1..];
      MovidoCasos(stockAntes, movsAntes, restantes[0].producto, restantes[0].cantidad, DeOrden("borrado", mesa.numero, fecha),
                  cat.stock, cat.movimientos);
      BorrarOrdenesSiguiente(stock0, movs0, todas, mesa.numero, fecha, k, restantes[0], stockAntes, movsAntes, cat.stock, cat.movimientos);
      NoNegativoTransitivo(stock0, stockAntes, cat.stock);
    }

    /**
     * `borrar_ordenes_no_existentes(nuevos)`: for every product id of the
     * orders (taken before any deletion) that is not requested, deletes the
     * first order of that product. The k-th such id is always the k-th
     * order not requested, so the unrequested orders are deleted in their
     * order, each giving its quantity back as `Borrar` does, and the
     * requested ones stay, in the same order.
     */
    method BorrarOrdenesNoExistentes(nuevos: seq<int>, fecha: string, cat: Catalogo)
      requires cat.Valid() && ProductosEn(cat.productos.Keys)
      modifies this`ordenes, cat`stock, cat`movimientos
      ensures ordenes == Conservadas(old(ordenes), nuevos)
      ensures cat.Valid() && ProductosEn(cat.productos.Keys)
      ensures NoNegativo(old(cat.stock), cat.stock)
      ensures OrdenesSobre(Fuera(old(ordenes), nuevos), old(cat.stock).Keys)
      ensures cat.movimientos == old(cat.movimientos) + MovsBorrarOrdenes(old(cat.stock), Fuera(old(ordenes), nuevos), mesa.numero, fecha)
      ensures cat.stock == Aplicar(old(cat.stock), MovsBorrarOrdenes(old(cat.stock), Fuera(old(ordenes), nuevos), mesa.numero, fecha))
    {
      var anteriores := IdsProductos(ordenes);
      ghost var ordenes0 := ordenes;
      ghost var stock0 := cat.stock;
      ghost var movs0 := cat.movimientos;
      TrasBorrarFueraExtremos(ordenes0, nuevos, stock0, movs0, mesa.numero, fecha, ordenes0, stock0, movs0);
      var k := 0;
      while k < |anteriores|
        invariant 0 <= k <= |anteriores| == |ordenes0|
        invariant BorradasHasta(ordenes0, nuevos, k, stock0, movs0, fecha, cat)
      {
        BorrarNoExistenteSiguiente(ordenes0, anteriores[k], nuevos, k, stock0, movs0, fecha, cat);
        k := k + 1;
      }
      TrasBorrarFueraExtremos(ordenes0, nuevos, stock0, movs0, mesa.numero, fecha, ordenes, cat.stock, cat.movimientos);
    }

    /**
     * What holds after the first `k` ids of `borrar_ordenes_no_existentes`:
     * the catalogue keeps its ledger and the orders and the log are as
     * `TrasBorrarFuera` says.
     */
    ghost predicate BorradasHasta(ordenes0: seq<OrdenProducto>, nuevos: seq<int>, k: nat, stock0: map<int, int>,
                                  movs0: seq<Movimiento>, fecha: string, cat: Catalogo)
      reads this, mesa, cat
    {
      && cat.Valid() && ProductosEn(cat.productos.Keys) && stock0.Keys == cat.productos.Keys
      && NoNegativo(stock0, cat.stock)
      && TrasBorrarFuera(ordenes0, nuevos, k, stock0, movs0, mesa.numero, fecha, ordenes, cat.stock, cat.movimientos)
    }

    /** One turn of the loop of `borrar_ordenes_no_existentes`, for the id of order `k`. */
    method BorrarNoExistenteSiguiente(ghost ordenes0: seq<OrdenProducto>, anterior: int, nuevos: seq<int>, ghost k: nat,
                                      ghost stock0: map<int, int>, ghost movs0: seq<Movimiento>, fecha: string, cat: Catalogo)
      requires k < |ordenes0| && anterior == ordenes0[k].producto
      requires BorradasHasta(ordenes0, nuevos, k, stock0, movs0, fecha, cat)
      modifies this`ordenes, cat`stock, cat`movimientos
      ensures BorradasHasta(ordenes0, nuevos, k + 1, stock0, movs0, fecha, cat)
    {
      ghost var ordenesAntes := ordenes;
      ghost var stockAntes := cat.stock;
      ghost var movsAntes := cat.movimientos;
      if anterior !in nuevos {
        IndiceFuera(ordenes0, nuevos, k, stock0, movs0, mesa.numero, fecha, ordenes, cat.stock, cat.movimientos);
        BorrarOrdenPorIdProducto(anterior, fecha, cat);
        TrasBorrarFueraPaso(ordenes0, nuevos, k, stock0, movs0, mesa.numero, fecha, ordenesAntes, stockAntes, movsAntes,
                            ordenes, cat.stock, cat.movimientos);
        NoNegativoTransitivo(stock0, stockAntes, cat.stock);
      } else {
        TrasConservarPaso(ordenes0, nuevos, k, stock0, movs0, mesa.numero, fecha, ordenes, cat.stock, cat.movimientos);
      }
    }

    /** `borrar_orden_por_id_producto`: deletes the first order of the product, if any, as `Borrar` does. */
    method BorrarOrdenPorIdProducto(idProducto: int, fecha: string, cat: Catalogo)
      requires cat.Valid() && ProductosEn(cat.productos.Keys)
      modifies this`ordenes, cat`stock, cat`movimientos
      ensures cat.Valid() && ProductosEn(cat.productos.Keys)
      ensures NoNegativo(old(cat.stock), cat.stock)
      ensures IndiceOrden(old(ordenes), idProducto).None? ==>
        ordenes == old(ordenes) && cat.stock == old(cat.stock) && cat.movimientos == old(cat.movimientos)
      ensures IndiceOrden(old(ordenes), idProducto).Some? ==>
        var j := IndiceOrden(old(ordenes), idProducto).value;
        && idProducto in old(cat.stock)
        && ordenes == old(ordenes)[..j] + old(ordenes)[j + 1..]
        && Movido(old(cat.stock), old(cat.movimientos), idProducto, old(ordenes)[j].cantidad,
                  DeOrden("borrado", mesa.numero, fecha), cat.stock, cat.movimientos)
    {
      var j := IndiceOrden(ordenes, idProducto);
      if j.Some? {
        QuitarSobre(ordenes, cat.productos.Keys, j.value);
        Borrar(j.value, fecha, cat);
      }
    }

    /**
     * `agregar_editar_ordenes(ordenes)`: first deletes the orders whose
     * product is not requested (all of them for an empty request); then,
     * entry by entry, edits the first order of the product (quantity and
     * delivered overwritten, stock moved by the difference, a shortage
     * ignored) or creates one (deleted again, with its error kept, when
     * stock is short). A product that does not exist ends the call with an
     * integrity error; kept shortage errors raise a validation error.
     */
    method AgregarEditarOrdenes(pedidas: seq<OrdenPedida>, fecha: string, cat: Catalogo)
      returns (r: Outcome<Error>, ghost borrado: seq<Movimiento>)
      requires cat.Valid() && ProductosEn(cat.productos.Keys)
      modifies this`ordenes, cat`stock, cat`movimientos
      ensures OrdenesSobre(Fuera(old(ordenes), IdsPedidos(pedidas)), old(cat.stock).Keys)
      ensures borrado == old(cat.movimientos) + MovsBorrarOrdenes(old(cat.stock), Fuera(old(ordenes), IdsPedidos(pedidas)), mesa.numero, fecha)
      ensures borrado <= cat.movimientos
      ensures pedidas == [] ==> cat.movimientos == borrado
      ensures cat.Valid() && ProductosEn(cat.productos.Keys)
      ensures NoNegativo(old(cat.stock), cat.stock)
      ensures r == Fail(Integridad) <==> exists j :: 0 <= j < |pedidas| && pedidas[j].producto !in cat.productos
      ensures pedidas == [] ==> ordenes == [] && r == Pass
      ensures r != Fail(Integridad) ==> SoloPedidas(ordenes, IdsPedidos(pedidas))
      ensures r == Pass ==> forall j :: 0 <= j < |pedidas| ==>
        PrimeraCon(ordenes, pedidas[j].producto, UltimaCantidad(pedidas, pedidas[j].producto))
      ensures r.Fail? && r.error != Integridad ==> r.error.Validacion?
    {
      var nuevos := IdsPedidos(pedidas);
      BorrarNoPedidas(nuevos, fecha, cat);
      borrado := cat.movimientos;
      ghost var stock0 := cat.stock;
      // An empty request has no entry to apply.
      var errores, faltante := [], false;
      ghost var parada := 0;
      if pedidas != [] {
        errores, faltante, parada := AgregarEditarPedidas(pedidas, nuevos, fecha, cat);
      }
      NoNegativoTransitivo(old(cat.stock), stock0, cat.stock);
      if faltante {
        r := Fail(Integridad);
        return;
      }
      if errores == [] {
        CantidadesCompletas(ordenes, pedidas);
      }
      if |errores| > 0 {
        r := Fail(Validacion(MENSAJE_ERROR_TURNO + Unir(" ", errores)));
        return;
      }
      r := Pass;
    }

    /**
     * The loop of `agregar_editar_ordenes` over the requested entries. It
     * stops at entry `parada` when its product does not exist (`faltante`:
     * the source collects a message there and then fails to save an order
     * without a product, so the message is never seen); otherwise it runs
     * to the end and returns the shortage messages of the orders it could
     * not create.
     */
    method AgregarEditarPedidas(pedidas: seq<OrdenPedida>, nuevos: seq<int>, fecha: string, cat: Catalogo)
      returns (errores: seq<string>, faltante: bool, ghost parada: nat)
      requires Avance(pedidas, nuevos, 0, [], cat.productos, cat.stock, cat)
      modifies this`ordenes, cat`stock, cat`movimientos
      ensures parada <= |pedidas| && (faltante <==> parada < |pedidas|)
      ensures faltante ==> pedidas[parada].producto !in cat.productos
      ensures Avance(pedidas, nuevos, parada, errores, old(cat.productos), old(cat.stock), cat)
      ensures old(cat.movimientos) <= cat.movimientos
    {
      ghost var productos := cat.productos;
      ghost var stock0 := cat.stock;
      ghost var movs0 := cat.movimientos;
      errores := [];
      faltante := false;
      var i := 0;
      while i < |pedidas|
        invariant 0 <= i <= |pedidas|
        invariant Avance(pedidas, nuevos, i, errores, productos, stock0, cat)
        invariant movs0 <= cat.movimientos
      {
        ghost var movsAntes := cat.movimientos;
        var siguientes;
        siguientes, faltante := AgregarEditarSiguiente(pedidas, nuevos, i, errores, productos, stock0, fecha, cat);
        if faltante {
          return errores, true, i;
        }
        PrefijoTransitivo(movs0, movsAntes, cat.movimientos);
        errores := siguientes;
        i := i + 1;
      }
      parada := i;
    }

    /**
     * What holds after the first `i` requested entries have been handled:
     * the catalogue keeps its ledger, no stock went negative, every order
     * is of a requested product, every entry so far was of an existing
     * product, and with no error so far their quantities are applied.
     */
    ghost predicate Avance(pedidas: seq<OrdenPedida>, nuevos: seq<int>, i: nat, errores: seq<string>,
                           productos: map<int, Producto>, stock0: map<int, int>, cat: Catalogo)
      reads this, cat
    {
      && i <= |pedidas| && nuevos == IdsPedidos(pedidas)
      && cat.productos == productos
      && cat.Valid() && ProductosEn(productos.Keys) && SoloPedidas(ordenes, nuevos)
      && NoNegativo(stock0, cat.stock)
      && (forall j :: 0 <= j < i ==> pedidas[j].producto in productos)
      && (errores == [] ==> CantidadesAplicadas(ordenes, pedidas, i))
      && |errores| <= i
    }

    /**
     * One turn of the loop of `agregar_editar_ordenes`, for entry `i`: a
     * product that does not exist adds its message and stops the loop;
     * otherwise the order is edited or created.
     */
    method AgregarEditarSiguiente(pedidas: seq<OrdenPedida>, nuevos: seq<int>, i: nat, errores: seq<string>,
                                  ghost productos: map<int, Producto>, ghost stock0: map<int, int>, fecha: string,
                                  cat: Catalogo) returns (siguientes: seq<string>, faltante: bool)
      requires i < |pedidas| && Avance(pedidas, nuevos, i, errores, productos, stock0, cat)
      modifies this`ordenes, cat`stock, cat`movimientos
      ensures faltante <==> pedidas[i].producto !in productos
      ensures faltante ==> siguientes == errores + [MENSAJE_SIN_PRODUCTO]
      ensures faltante ==> Avance(pedidas, nuevos, i, errores, productos, stock0, cat)
      ensures !faltante ==> Avance(pedidas, nuevos, i + 1, siguientes, productos, stock0, cat)
      ensures old(cat.movimientos) <= cat.movimientos
    {
      var pedida := pedidas[i];
      if pedida.producto !in cat.productos {
        return errores + [MENSAJE_SIN_PRODUCTO], true;
      }
      ghost var stockAntes := cat.stock;
      var errorStock := AgregarEditarOrden(pedida, nuevos, pedidas, i, fecha, cat);
      NoNegativoTransitivo(stock0, stockAntes, cat.stock);
      return errores + errorStock, false;
    }

    /**
     * The first step of `agregar_editar_ordenes`: with a non-empty request
     * the orders of products outside it are deleted, with an empty one all
     * orders are.
     */
    method BorrarNoPedidas(nuevos: seq<int>, fecha: string, cat: Catalogo)
      requires cat.Valid() && ProductosEn(cat.productos.Keys)
      modifies this`ordenes, cat`stock, cat`movimientos
      ensures cat.Valid() && ProductosEn(cat.productos.Keys)
      ensures NoNegativo(old(cat.stock), cat.stock)
      ensures SoloPedidas(ordenes, nuevos)
      ensures ordenes == Conservadas(old(ordenes), nuevos)
      ensures nuevos == [] ==> ordenes == []
      ensures OrdenesSobre(Fuera(old(ordenes), nuevos), old(cat.stock).Keys)
      ensures cat.movimientos == old(cat.movimientos) + MovsBorrarOrdenes(old(cat.stock), Fuera(old(ordenes), nuevos), mesa.numero, fecha)
      ensures cat.stock == Aplicar(old(cat.stock), MovsBorrarOrdenes(old(cat.stock), Fuera(old(ordenes), nuevos), mesa.numero, fecha))
    {
      if |nuevos| > 0 {
        BorrarOrdenesNoExistentes(nuevos, fecha, cat);
      } else {
        NadaPedido(ordenes);
        BorrarOrdenes(fecha, cat);
      }
    }

    /**
     * The body of the loop of `agregar_editar_ordenes` for entry `i`, whose
     * product exists: edits the first order of the product or creates one.
     */
    method AgregarEditarOrden(pedida: OrdenPedida, ghost nuevos: seq<int>, ghost pedidas: seq<OrdenPedida>, ghost i: nat,
                              fecha: string, cat: Catalogo) returns (errorStock: seq<string>)
      requires i < |pedidas| && pedida == pedidas[i] && nuevos == IdsPedidos(pedidas)
      requires pedida.producto in cat.productos && cat.Valid() && ProductosEn(cat.productos.Keys) && SoloPedidas(ordenes, nuevos)
      modifies this`ordenes, cat`stock, cat`movimientos
      ensures cat.Valid() && ProductosEn(cat.productos.Keys) && SoloPedidas(ordenes, nuevos)
      ensures NoNegativo(old(cat.stock), cat.stock)
      ensures CantidadesAplicadas(old(ordenes), pedidas, i) && errorStock == [] ==> CantidadesAplicadas(ordenes, pedidas, i + 1)
      ensures |errorStock| <= 1
      ensures pedida.producto in old(cat.stock)
      ensures IndiceOrden(old(ordenes), pedida.producto).Some? ==>
        var j := IndiceOrden(old(ordenes), pedida.producto).value;
        && errorStock == []
        && ordenes == old(ordenes)[j := old(ordenes)[j].(cantidad := pedida.cantidad, entregado := EntregadoEfectivo(pedida.entregado))]
        && Movido(old(cat.stock), old(cat.movimientos), pedida.producto, old(ordenes)[j].cantidad - pedida.cantidad,
                  DeOrden("edición", mesa.numero, fecha), cat.stock, cat.movimientos)
      ensures IndiceOrden(old(ordenes), pedida.producto).None? ==>
        && (errorStock == [] <==> old(cat.stock)[pedida.producto] - pedida.cantidad >= 0 || pedida.cantidad == 0)
        && (errorStock == [] ==>
              ordenes == old(ordenes) + [OrdenProducto(pedida.producto, SOLICITADO, pedida.cantidad, 0)]
              && Movido(old(cat.stock), old(cat.movimientos), pedida.producto, -pedida.cantidad,
                        DeOrden("creación", mesa.numero, fecha), cat.stock, cat.movimientos))
        && (errorStock != [] ==>
              errorStock == [MensajeSinStock(cat.productos[pedida.producto].nombre, old(cat.stock)[pedida.producto])]
              && ordenes == old(ordenes) && cat.stock == old(cat.stock) && cat.movimientos == old(cat.movimientos))
      ensures old(cat.movimientos) <= cat.movimientos
    {
      ghost var antes := ordenes;
      ghost var aplicadas := CantidadesAplicadas(antes, pedidas, i);
      var existe := IndiceOrden(ordenes, pedida.producto);
      var entregado := EntregadoEfectivo(pedida.entregado);
      if existe.Some? {
        assert antes[existe.value].producto == pedida.producto;
        EditarOrden(existe.value, pedida.cantidad, entregado, fecha, cat);
        SoloPedidasEditar(antes, nuevos, existe.value, ordenes[existe.value]);
        errorStock := [];
        if aplicadas {
          CantidadesEditar(antes, ordenes, pedidas, i, existe.value, entregado);
        }
      } else {
        assert nuevos[i] == pedida.producto;
        SoloPedidasAgregar(antes, nuevos, OrdenProducto(pedida.producto, SOLICITADO, pedida.cantidad, 0));
        errorStock := CrearOrden(pedida.producto, pedida.cantidad, fecha, cat);
        if aplicadas && errorStock == [] {
          CantidadesCrear(antes, ordenes, pedidas, i);
        }
      }
    }

    /**
     * The edit branch of `agregar_editar_ordenes` for order `j`: quantity
     * and delivered are overwritten, then stock moves by the difference
     * through `ActualizarStockProducto`, whose shortage error is dropped,
     * so on a shortage the quantity changes and the stock does not.
     */
    method EditarOrden(j: nat, cantidad: int, entregado: int, fecha: string, cat: Catalogo)
      requires j < |ordenes| && cat.Valid() && ProductosEn(cat.productos.Keys)
      modifies this`ordenes, cat`stock, cat`movimientos
      ensures ordenes == old(ordenes)[j := old(ordenes)[j].(cantidad := cantidad, entregado := entregado)]
      ensures cat.Valid() && ProductosEn(cat.productos.Keys)
      ensures NoNegativo(old(cat.stock), cat.stock)
      ensures old(ordenes)[j].producto in old(cat.stock)
      ensures Movido(old(cat.stock), old(cat.movimientos), old(ordenes)[j].producto, old(ordenes)[j].cantidad - cantidad,
                     DeOrden("edición", mesa.numero, fecha), cat.stock, cat.movimientos)
      ensures old(cat.movimientos) <= cat.movimientos
    {
      var anterior := ordenes[j].cantidad;
      ordenes := ordenes[j := ordenes[j].(cantidad := cantidad, entregado := entregado)];
      var _ := ActualizarStockProducto(ordenes[j].producto, cantidad, anterior, "edición", fecha, cat);
    }

    /**
     * The create branch of `agregar_editar_ordenes`: a requested order is
     * added and takes its quantity from stock; when stock is short it is
     * deleted again and the shortage message is returned.
     */
    method CrearOrden(producto: int, cantidad: int, fecha: string, cat: Catalogo) returns (errores: seq<string>)
      requires cat.Valid() && ProductosEn(cat.productos.Keys) && producto in cat.productos
      modifies this`ordenes, cat`stock, cat`movimientos
      ensures cat.Valid() && ProductosEn(cat.productos.Keys)
      ensures NoNegativo(old(cat.stock), cat.stock)
      ensures errores == [] <==> old(cat.stock)[producto] - cantidad >= 0 || cantidad == 0
      ensures errores == [] ==> ordenes == old(ordenes) + [OrdenProducto(producto, SOLICITADO, cantidad, 0)]
      ensures errores == [] ==> cat.stock == old(cat.stock)[producto := old(cat.stock)[producto] - cantidad]
      ensures errores == [] ==> Movido(old(cat.stock), old(cat.movimientos), producto, -cantidad,
                                       DeOrden("creación", mesa.numero, fecha), cat.stock, cat.movimientos)
      ensures errores != [] ==> ordenes == old(ordenes) && cat.stock == old(cat.stock) && cat.movimientos == old(cat.movimientos)
      ensures errores != [] ==> errores == [MensajeSinStock(cat.productos[producto].nombre, old(cat.stock)[producto])]
      ensures old(cat.movimientos) <= cat.movimientos
    {
      ordenes := ordenes + [OrdenProducto(producto, SOLICITADO, cantidad, 0)];
      errores := ActualizarStockProducto(producto, cantidad, 0, "creación", fecha, cat);
      if |errores| > 0 {
        ordenes := ordenes[..|ordenes| - 1];
      }
    }

    /**
     * `cerrar`: the turn is closed at `ahora` and the table freed; a table
     * sale of the turn's creator is made with one line per order at the
     * product's current price, its total the sum; every order is marked
     * delivered. No stock moves.
     */
    method Cerrar(idVenta: nat, ahora: int, cat: Catalogo) returns (v: G.Venta)
      requires ProductosEn(cat.productos.Keys)
      modifies this`estado, this`horaFin, this`ordenes, this`venta, mesa`estado
      ensures estado == CERRADO && horaFin == Some(ahora) && ComprobarCerrado() && !ComprobarAbierto() && Consistente()
      ensures old(mesa.Consistente()) ==> mesa.Consistente()
      ensures mesa.estado == DISPONIBLE && mesa.ComprobarPuedeEditarse()
      ensures fresh(v) && venta == v
      ensures v.id == idVenta && v.usuario == creador && v.tipo == G.MESA && v.pedido == null
      ensures v.turno == Some(id) && v.anulado == None
      ensures |v.lineas| == |old(ordenes)|
      ensures forall k :: 0 <= k < |old(ordenes)| ==>
        v.lineas[k] == G.VentaLinea(old(ordenes)[k].producto, old(ordenes)[k].cantidad, cat.Precio(old(ordenes)[k].producto),
                                    cat.Precio(old(ordenes)[k].producto) * old(ordenes)[k].cantidad)
      ensures v.total == G.SumaVenta(v.lineas) == TotalOrdenes(old(ordenes), cat.productos)
      ensures |ordenes| == |old(ordenes)|
      ensures forall k :: 0 <= k < |ordenes| ==> ordenes[k] == old(ordenes)[k].(estado := ENTREGADO)
    {
      estado := CERRADO;
      horaFin := Some(ahora);
      mesa.estado := DISPONIBLE;
      v := new G.Venta(idVenta, creador, G.MESA, null, Some(id));
      ghost var ordenes0 := ordenes;
      var i := 0;
      while i < |ordenes|
        invariant 0 <= i <= |ordenes| == |ordenes0|
        invariant estado == CERRADO && horaFin == Some(ahora) && mesa.estado == DISPONIBLE
        invariant fresh(v)
        invariant v.id == idVenta && v.usuario == creador && v.tipo == G.MESA && v.pedido == null
        invariant v.turno == Some(id) && v.anulado == None
        invariant |v.lineas| == i
        invariant forall k :: 0 <= k < i ==> ordenes[k] == ordenes0[k].(estado := ENTREGADO)
        invariant forall k :: i <= k < |ordenes| ==> ordenes[k] == ordenes0[k]
        invariant forall k :: 0 <= k < i ==>
          v.lineas[k] == G.VentaLinea(ordenes0[k].producto, ordenes0[k].cantidad, cat.Precio(ordenes0[k].producto),
                                      cat.Precio(ordenes0[k].producto) * ordenes0[k].cantidad)
      {
        ordenes := ordenes[i := ordenes[i].(estado := ENTREGADO)];
        var producto := ordenes[i].producto;
        var cantidad := ordenes[i].cantidad;
        var precio := cat.Precio(producto);
        v.AgregarLinea(G.VentaLinea(producto, cantidad, precio, precio * cantidad));
        i := i + 1;
      }
      v.Actualizar();
      SumaVentaEsTotal(v.lineas, ordenes0, cat.productos);
      venta := v;
    }

    /** `anular`: the turn is voided at `ahora` and the table freed; stock is not touched. */
    method Anular(ahora: int)
      modifies this`estado, this`horaFin, mesa`estado
      ensures estado == ANULADO && horaFin == Some(ahora) && ComprobarAnulado() && !ComprobarAbierto() && Consistente()
      ensures old(mesa.Consistente()) ==> mesa.Consistente()
      ensures mesa.estado == DISPONIBLE && mesa.ComprobarPuedeEditarse()
    {
      estado := ANULADO;
      horaFin := Some(ahora);
      mesa.estado := DISPONIBLE;
    }
  }

  /** A sale whose lines copy the orders at current prices totals what `get_total` says. */
  lemma {:induction false} SumaVentaEsTotal(lineas: seq<G.VentaLinea>, ordenes: seq<OrdenProducto>, productos: map<int, Producto>)
    requires OrdenesSobre(ordenes, productos.Keys) && |lineas| == |ordenes|
    requires forall k :: 0 <= k < |ordenes| ==> lineas[k].total == productos[ordenes[k].producto].precioVigente * ordenes[k].cantidad
    ensures G.SumaVenta(lineas) == TotalOrdenes(ordenes, productos)
    decreases |ordenes|
  {
    if ordenes != [] {
      var n := |ordenes| - 1;
      SumaVentaEsTotal(lineas[..n], ordenes[..n], productos);
    }
  }
}
