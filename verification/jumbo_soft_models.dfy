/**
 * The older customer order of jumbo_soft/models.py: only open and closed
 * are valid states, the state history gets a record the first time a state
 * is reached and never again, and cancelling, delivering and viewing are
 * gated by ownership and the user's role flags. The users of this file are
 * `Usuarios.Usuario`; the product prices are read from the catalogue.
 */
module JumboSoft {
  import opened Comun
  import opened Inventario
  import opened Usuarios

  const ABIERTO := "abierto"
  const CERRADO := "cerrado"
  const RECIBIDO := "recibido"
  const CANCELADO := "cancelado"

  /**
   * `Estado.comprobar_estado_valido`: only open and closed are accepted,
   * although received and cancelled are states the file defines and uses.
   */
  function ComprobarEstadoValido(estado: string): (r: bool)
    ensures r <==> estado in {ABIERTO, CERRADO}
    ensures estado == RECIBIDO || estado == CANCELADO ==> !r
  {
    estado == ABIERTO || estado == CERRADO
  }

  /** A row of the order's state history. */
  datatype Estado = Estado(estado: string, fecha: int)

  datatype PedidoLinea = PedidoLinea(producto: int, cantidad: int, subtotal: int, total: int)

  function SumaTotales(lineas: seq<PedidoLinea>): int
  {
    if lineas == [] then 0 else SumaTotales(lineas[..|lineas| - 1]) + lineas[|lineas| - 1].total
  }

  /** The line as loading it leaves it: at the product's current price. */
  function Repreciada(l: PedidoLinea, cat: Catalogo): (r: PedidoLinea)
    reads cat
    requires l.producto in cat.productos
    ensures r.producto == l.producto && r.cantidad == l.cantidad
    ensures r.subtotal == cat.Precio(l.producto) && r.total == r.subtotal * r.cantidad
  {
    var precio := cat.Precio(l.producto);
    l.(subtotal := precio, total := precio * l.cantidad)
  }

  /** Every line's product is in the catalogue (the foreign key is protected). */
  predicate LineasEn(lineas: seq<PedidoLinea>, cat: Catalogo)
    reads cat
  {
    forall k :: 0 <= k < |lineas| ==> lineas[k].producto in cat.productos
  }

  /** The lines' value at current prices, whatever totals they have stored. */
  function SumaVigente(lineas: seq<PedidoLinea>, cat: Catalogo): int
    reads cat
    requires LineasEn(lineas, cat)
  {
    if lineas == [] then 0
    else
      var u := lineas[|lineas| - 1];
      SumaVigente(lineas[..|lineas| - 1], cat) + cat.Precio(u.producto) * u.cantidad
  }

  /** Once every line is at its current price, the stored totals add up to the current value. */
  lemma {:induction false} SumaVigenteRepreciadas(lineas: seq<PedidoLinea>, cat: Catalogo)
    requires LineasEn(lineas, cat)
    requires forall k :: 0 <= k < |lineas| ==> lineas[k].total == cat.Precio(lineas[k].producto) * lineas[k].cantidad
    ensures SumaTotales(lineas) == SumaVigente(lineas, cat)
  {
    if lineas != [] {
      var init := lineas[..|lineas| - 1];
      assert LineasEn(init, cat) by {
        forall k | 0 <= k < |init| ensures init[k].producto in cat.productos {
          assert init[k] == lineas[k];
        }
      }
      forall k | 0 <= k < |init|
        ensures init[k].total == cat.Precio(init[k].producto) * init[k].cantidad
      {
        assert init[k] == lineas[k];
      }
      SumaVigenteRepreciadas(init, cat);
    }
  }

  /** Re-pricing keeps the current value: it depends only on products and quantities. */
  lemma {:induction false} SumaVigenteRepreciar(antes: seq<PedidoLinea>, despues: seq<PedidoLinea>, cat: Catalogo)
    requires LineasEn(antes, cat) && |despues| == |antes|
    requires forall k :: 0 <= k < |antes| ==> despues[k] == Repreciada(antes[k], cat)
    ensures LineasEn(despues, cat)
    ensures SumaVigente(despues, cat) == SumaVigente(antes, cat) == SumaTotales(despues)
  {
    assert LineasEn(despues, cat) by {
      forall k | 0 <= k < |despues| ensures despues[k].producto in cat.productos {
        assert despues[k] == Repreciada(antes[k], cat);
      }
    }
    if antes != [] {
      var n := |antes| - 1;
      forall k | 0 <= k < n ensures despues[..n][k] == Repreciada(antes[..n][k], cat) {
        assert despues[..n][k] == despues[k] && antes[..n][k] == antes[k];
      }
      assert LineasEn(antes[..n], cat) by {
        forall k | 0 <= k < n ensures antes[..n][k].producto in cat.productos {
          assert antes[..n][k] == antes[k];
        }
      }
      SumaVigenteRepreciar(antes[..n], despues[..n], cat);
      assert despues[n] == Repreciada(antes[n], cat);
    }
    SumaVigenteRepreciadas(despues, cat);
  }

  /** No record of state `e` in the history. */
  predicate SinEstado(estados: seq<Estado>, e: string)
  {
    forall i :: 0 <= i < |estados| ==> estados[i].estado != e
  }

  /** The history holds at most one record per state. */
  predicate EstadosUnicos(estados: seq<Estado>)
  {
    forall i, j :: 0 <= i < j < |estados| ==> estados[i].estado != estados[j].estado
  }

  class Pedido {
    const id: nat
    var usuario: Usuario
    var ultimoEstado: string
    var estados: seq<Estado>
    var lineas: seq<PedidoLinea>
    var total: int
    var forzar: bool

    /**
     * Creating an order saves it and records the open state: the history
     * starts with exactly one record, `abierto`.
     */
    constructor (id: nat, usuario: Usuario, total: int, ahora: int)
      ensures this.id == id && this.usuario == usuario && this.total == total && !forzar
      ensures ultimoEstado == ABIERTO && estados == [Estado(ABIERTO, ahora)] && lineas == []
      ensures EstadosUnicos(estados)
    {
      this.id := id;
      this.usuario := usuario;
      this.total := total;
      forzar := false;
      ultimoEstado := ABIERTO;
      estados := [];
      lineas := [];
      new;
      AgregarEstado(ABIERTO, ahora);
    }

    predicate ComprobarVacio() reads this { |lineas| == 0 }

    // The state checks `comprobar_estado_*`: no two hold together, and the
    // received and cancelled checks hold only for states that
    // `comprobar_estado_valido` rejects.

    function ComprobarEstadoCerrado(): (r: bool)
      reads this
      ensures r ==> ComprobarEstadoValido(ultimoEstado)
      ensures r ==> !ComprobarEstadoAbierto() && !ComprobarEstadoRecibido() && !ComprobarEstadoCancelado()
    {
      ultimoEstado == CERRADO
    }

    function ComprobarEstadoAbierto(): (r: bool)
      reads this
      ensures r ==> ComprobarEstadoValido(ultimoEstado)
      ensures r ==> !ComprobarEstadoRecibido() && !ComprobarEstadoCancelado()
    {
      ultimoEstado == ABIERTO
    }

    function ComprobarEstadoRecibido(): (r: bool)
      reads this
      ensures r ==> !ComprobarEstadoValido(ultimoEstado)
      ensures r ==> !ComprobarEstadoCancelado()
    {
      ultimoEstado == RECIBIDO
    }

    function ComprobarEstadoCancelado(): (r: bool)
      reads this
      ensures r ==> !ComprobarEstadoValido(ultimoEstado)
    {
      ultimoEstado == CANCELADO
    }

    /** The owner always sees the order; other users only if admin or seller. */
    function ComprobarPuedeVisualizar(u: Usuario): (r: bool)
      reads this, u, usuario
      ensures MismoUsuario(usuario, u) ==> r
      ensures !u.esAdmin && !u.esVendedor ==> (r <==> MismoUsuario(usuario, u))
      ensures u.esAdmin || u.esVendedor ==> r
    {
      var lePertenece := MismoUsuario(usuario, u);
      lePertenece || u.esAdmin || u.esVendedor
    }

    /** A closed order is handed over by a seller or an admin; nothing else is. */
    function ComprobarPuedeEntregar(u: Usuario): (r: bool)
      reads this, u
      ensures r ==> ultimoEstado == CERRADO
      ensures ultimoEstado == CERRADO ==> (r <==> u.esVendedor || u.esAdmin)
    {
      var cerrado := ComprobarEstadoCerrado();
      cerrado && (u.esVendedor || u.esAdmin)
    }

    /**
     * Who may cancel, by state: an open order only its owner, a closed
     * order only a seller, and nobody in any other state.
     */
    function ComprobarPuedeCancelar(u: Usuario): (r: bool)
      reads this, u, usuario
      ensures ultimoEstado == ABIERTO ==> (r <==> MismoUsuario(usuario, u))
      ensures ultimoEstado == CERRADO ==> (r <==> u.esVendedor)
      ensures ultimoEstado != ABIERTO && ultimoEstado != CERRADO ==> !r
    {
      var abierto := ComprobarEstadoAbierto();
      var cerrado := ComprobarEstadoCerrado();
      var lePertenece := MismoUsuario(usuario, u);
      (abierto && lePertenece) || (cerrado && u.esVendedor)
    }

    /**
     * `actualizar_total`: loading each line runs `PedidoLinea.__init__`,
     * which re-prices it at the product's current price and saves it; the
     * order total is then the sum of the re-priced line totals, that is the
     * lines' value at current prices.
     */
    method ActualizarTotal(cat: Catalogo)
      requires LineasEn(lineas, cat)
      modifies this`lineas, this`total
      ensures |lineas| == |old(lineas)|
      ensures forall k :: 0 <= k < |lineas| ==> lineas[k] == Repreciada(old(lineas)[k], cat)
      ensures total == SumaTotales(lineas)
      ensures total == SumaVigente(old(lineas), cat)
    {
      ghost var antes := lineas;
      var suma := 0;
      var i := 0;
      while i < |lineas|
        invariant 0 <= i <= |lineas| == |antes|
        invariant forall k :: 0 <= k < i ==> lineas[k] == Repreciada(antes[k], cat)
        invariant forall k :: i <= k < |lineas| ==> lineas[k] == antes[k]
        invariant suma == SumaTotales(lineas[..i])
      {
        ghost var previas := lineas;
        ActualizarTotalLinea(i, cat);
        assert lineas[..i] == previas[..i];
        assert lineas[i] == Repreciada(antes[i], cat);
        assert lineas[..i + 1][..i] == lineas[..i];
        suma := suma + lineas[i].total;
        i := i + 1;
      }
      assert lineas[..|lineas|] == lineas;
      SumaVigenteRepreciar(antes, lineas, cat);
      total := suma;
    }

    /**
     * `agregar_estado(estado)`: only when the history has no record of that
     * state is one appended and `ultimo_estado` set; otherwise nothing
     * changes. Either way the history then records the state, and it keeps
     * at most one record per state.
     */
    method AgregarEstado(estado: string, ahora: int)
      modifies this`estados, this`ultimoEstado
      ensures SinEstado(old(estados), estado) ==>
        estados == old(estados) + [Estado(estado, ahora)] && ultimoEstado == estado
      ensures !SinEstado(old(estados), estado) ==> estados == old(estados) && ultimoEstado == old(ultimoEstado)
      ensures !SinEstado(estados, estado)
      ensures EstadosUnicos(old(estados)) ==> EstadosUnicos(estados)
    {
      var ultimo := IndicePrimero(estados, estado);
      if ultimo.None? {
        estados := estados + [Estado(estado, ahora)];
        ultimoEstado := estado;
        assert estados[|estados| - 1].estado == estado;
      } else {
        assert estados[ultimo.value].estado == estado;
      }
    }

    /** `borrar_datos_pedido`: the history and the lines are deleted. */
    method BorrarDatosPedido()
      modifies this`estados, this`lineas
      ensures estados == [] && lineas == []
      ensures ComprobarVacio() && EstadosUnicos(estados)
    {
      estados := [];
      lineas := [];
    }

    /** `recibir_pedido`: `agregar_estado(recibido)`. */
    method RecibirPedido(ahora: int)
      modifies this`estados, this`ultimoEstado
      ensures SinEstado(old(estados), RECIBIDO) ==>
        estados == old(estados) + [Estado(RECIBIDO, ahora)] && ComprobarEstadoRecibido()
      ensures !SinEstado(old(estados), RECIBIDO) ==> estados == old(estados) && ultimoEstado == old(ultimoEstado)
    {
      AgregarEstado(RECIBIDO, ahora);
    }

    /**
     * `PedidoLinea.actualizar_total` for line `i`: the unit price is the
     * product's current price and the line total is price times quantity.
     */
    method ActualizarTotalLinea(i: nat, cat: Catalogo)
      requires i < |lineas| && lineas[i].producto in cat.productos
      modifies this`lineas
      ensures |lineas| == |old(lineas)|
      ensures forall k :: 0 <= k < |lineas| && k != i ==> lineas[k] == old(lineas)[k]
      ensures lineas[i].producto == old(lineas)[i].producto && lineas[i].cantidad == old(lineas)[i].cantidad
      ensures lineas[i].subtotal == cat.Precio(lineas[i].producto)
      ensures lineas[i].total == lineas[i].subtotal * lineas[i].cantidad
    {
      var precio := cat.Precio(lineas[i].producto);
      var total := precio * lineas[i].cantidad;
      lineas := lineas[i := lineas[i].(subtotal := precio, total := total)];
    }

    /**
     * Creating a `PedidoLinea`: the new line's totals are computed as
     * `actualizar_total` does, and the order sum grows by its total.
     */
    method AgregarLinea(producto: int, cantidad: int, cat: Catalogo)
      requires producto in cat.productos
      modifies this`lineas
      ensures lineas == old(lineas) + [PedidoLinea(producto, cantidad, cat.Precio(producto), cat.Precio(producto) * cantidad)]
      ensures SumaTotales(lineas) == SumaTotales(old(lineas)) + cat.Precio(producto) * cantidad
    {
      lineas := lineas + [PedidoLinea(producto, cantidad, 0, 0)];
      ActualizarTotalLinea(|lineas| - 1, cat);
      assert lineas[..|lineas| - 1] == old(lineas);
    }
  }

  /** The index of some record of state `e`, as `filter(estado=e).first()` finds one. */
  function IndicePrimero(estados: seq<Estado>, e: string): (r: Option<nat>)
    ensures r.None? <==> SinEstado(estados, e)
    ensures r.Some? ==> r.value < |estados| && estados[r.value].estado == e
  {
    if estados == [] then None
    else if estados[0].estado == e then Some(0)
    else
      var resto := IndicePrimero(estados[1..], e);
      assert forall i :: 1 <= i < |estados| ==> estados[i] == estados[1..][i - 1];
      if resto.Some? then Some(resto.value + 1) else None
  }
}
