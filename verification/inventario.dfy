/**
 * The product stock and its movement log. Every stock change of the core
 * goes through `Producto.actualizar_stock(nueva, descripcion)`, which the
 * core calls but does not define; it is modelled here as the abstract
 * write "the stock of p becomes `nueva` and a movement with delta
 * `nueva - anterior` is appended".
 */
module Inventario {
  import opened Comun

  /** The static data of a product the core reads. */
  datatype Producto = Producto(nombre: string, precioVigente: int, compraDirecta: bool)

  /** The three line events an order logs. */
  datatype AccionLinea = Creacion | Actualizacion | Borrado

  /**
   * What a movement says it was for. The log keeps these parts; `Texto`
   * renders the exact description the source writes from them.
   */
  datatype Descripcion =
    | LineaPedido(accion: AccionLinea, pedido: nat)
    | DeVenta(venta: nat, anulada: bool)
    | DeOrden(verbo: string, mesa: int, fecha: string)

  /** `"P" + str(id).zfill(5)` and `"V" + str(id).zfill(5)`. */
  function IdTexto(letra: char, id: nat): (r: string)
    ensures r != [] && r[0] == letra
  {
    [letra] + ZFill(NatATexto(id), 5)
  }

  /**
   * An id text is the letter followed by at least five digits that denote
   * the id, so two ids with the same text are the same id.
   */
  lemma IdTextoDigitos(letra: char, id: nat)
    ensures |IdTexto(letra, id)| >= 6
    ensures SoloDigitos(IdTexto(letra, id)[1..]) && ValorDigitos(IdTexto(letra, id)[1..]) == id
  {
    ZFillDigitos(id, 5);
    assert IdTexto(letra, id)[1..] == ZFill(NatATexto(id), 5);
  }

  lemma IdTextoInyectivo(letra: char, a: nat, b: nat)
    requires IdTexto(letra, a) == IdTexto(letra, b)
    ensures a == b
  {
    IdTextoDigitos(letra, a);
    IdTextoDigitos(letra, b);
  }

  /** `Mesa.get_numero_texto`: "#" followed by the number padded to five digits. */
  function NumeroMesaTexto(numero: int): (r: string)
    ensures r != [] && r[0] == '#'
  {
    "#" + ZFill(EnteroATexto(numero), 5)
  }

  /** "Venta V00042": `Venta.__str__`. */
  function NombreVenta(id: nat): string
  {
    "Venta " + IdTexto('V', id)
  }

  /** The description text the source passes to `actualizar_stock`. */
  function Texto(d: Descripcion): string
  {
    match d
    case LineaPedido(Creacion, p) => "Creación de línea de Pedido " + IdTexto('P', p)
    case LineaPedido(Actualizacion, p) => "Actualización de línea de Pedido " + IdTexto('P', p)
    case LineaPedido(Borrado, p) => "Borrado de línea de Pedido " + IdTexto('P', p)
    case DeVenta(v, anulada) => NombreVenta(v) + (if anulada then " anulada" else "")
    case DeOrden(verbo, mesa, fecha) =>
      Capitalizar(verbo) + " de la orden del turno de la mesa " + NumeroMesaTexto(mesa) + " " + fecha
  }

  /** One entry of the stock log: a signed change of one product's stock. */
  datatype Movimiento = Movimiento(producto: int, cantidad: int, descripcion: Descripcion)

  /** Sum of the deltas that `movs` record for product `p`. */
  function SumaMovimientos(movs: seq<Movimiento>, p: int): int
  {
    if movs == [] then 0
    else SumaMovimientos(movs[..|movs| - 1], p)
         + (if movs[|movs| - 1].producto == p then movs[|movs| - 1].cantidad else 0)
  }

  predicate MovimientosSobre(movs: seq<Movimiento>, claves: set<int>)
  {
    forall i :: 0 <= i < |movs| ==> movs[i].producto in claves
  }

  /** The stock that results from applying `movs` in order to `stock`. */
  function Aplicar(stock: map<int, int>, movs: seq<Movimiento>): (r: map<int, int>)
    requires MovimientosSobre(movs, stock.Keys)
    ensures r.Keys == stock.Keys
  {
    if movs == [] then stock
    else
      var antes := Aplicar(stock, movs[..|movs| - 1]);
      var m := movs[|movs| - 1];
      antes[m.producto := antes[m.producto] + m.cantidad]
  }

  /** Applying a log changes each product by exactly the sum of its deltas. */
  lemma {:induction false} AplicarEsSuma(stock: map<int, int>, movs: seq<Movimiento>, p: int)
    requires MovimientosSobre(movs, stock.Keys) && p in stock
    ensures Aplicar(stock, movs)[p] == stock[p] + SumaMovimientos(movs, p)
  {
    if movs != [] {
      AplicarEsSuma(stock, movs[..|movs| - 1], p);
    }
  }

  /** Applying two logs one after the other is applying their concatenation. */
  lemma {:induction false} AplicarConcatenar(stock: map<int, int>, a: seq<Movimiento>, b: seq<Movimiento>)
    requires MovimientosSobre(a + b, stock.Keys)
    ensures MovimientosSobre(a, stock.Keys) && MovimientosSobre(b, stock.Keys)
    ensures Aplicar(stock, a + b) == Aplicar(Aplicar(stock, a), b)
    decreases |b|
  {
    assert forall i :: 0 <= i < |a| ==> a[i] == (a + b)[i];
    assert forall i :: 0 <= i < |b| ==> b[i] == (a + b)[|a| + i];
    if b != [] {
      var b' := b[..|b| - 1];
      assert (a + b)[..|a + b| - 1] == a + b';
      AplicarConcatenar(stock, a, b');
    } else {
      assert a + b == a;
    }
  }

  /** A log over some products stays over them when a movement of one of them is appended. */
  lemma SobreUnoMas(movs: seq<Movimiento>, m: Movimiento, claves: set<int>)
    requires MovimientosSobre(movs, claves) && m.producto in claves
    ensures MovimientosSobre(movs + [m], claves)
  {
    var t := movs + [m];
    forall i | 0 <= i < |t|
      ensures t[i].producto in claves
    {
      if i < |movs| {
        assert t[i] == movs[i];
      }
    }
  }

  /** Applying one more movement changes only its product, by its delta. */
  lemma AplicarUno(stock: map<int, int>, movs: seq<Movimiento>, m: Movimiento)
    requires MovimientosSobre(movs, stock.Keys) && m.producto in stock
    ensures MovimientosSobre(movs + [m], stock.Keys)
    ensures Aplicar(stock, movs + [m]) == Aplicar(stock, movs)[m.producto := Aplicar(stock, movs)[m.producto] + m.cantidad]
  {
    SobreUnoMas(movs, m, stock.Keys);
    var t := movs + [m];
    assert t[..|t| - 1] == movs;
    assert t[|t| - 1] == m;
  }

  /** The sum of deltas distributes over concatenation of logs. */
  lemma {:induction false} SumaMovimientosConcatenar(a: seq<Movimiento>, b: seq<Movimiento>, p: int)
    ensures SumaMovimientos(a + b, p) == SumaMovimientos(a, p) + SumaMovimientos(b, p)
    decreases |b|
  {
    if b == [] {
      assert a + b == a;
    } else {
      assert (a + b)[..|a + b| - 1] == a + b[..|b| - 1];
      SumaMovimientosConcatenar(a, b[..|b| - 1], p);
    }
  }

  /**
   * The products: static data, the cached stock counter and the movement
   * log. `inicial` is the stock before any logged movement; `Valid` is the
   * ledger invariant "stock == initial stock + all logged deltas".
   */
  class Catalogo {
    var productos: map<int, Producto>
    var stock: map<int, int>
    var movimientos: seq<Movimiento>
    ghost var inicial: map<int, int>

    ghost predicate Valid()
      reads this
    {
      && stock.Keys == productos.Keys == inicial.Keys
      && MovimientosSobre(movimientos, inicial.Keys)
      && stock == Aplicar(inicial, movimientos)
    }

    constructor (productos: map<int, Producto>, stock: map<int, int>)
      requires stock.Keys == productos.Keys
      ensures Valid()
      ensures this.productos == productos && this.stock == stock && movimientos == []
    {
      this.productos := productos;
      this.stock := stock;
      this.movimientos := [];
      this.inicial := stock;
    }

    function Precio(p: int): int
      reads this
      requires p in productos
    {
      productos[p].precioVigente
    }

    /**
     * `Producto.actualizar_stock(nueva=..., descripcion=...)`: the stock of
     * `p` becomes `nueva` and the change is logged.
     */
    method ActualizarStock(p: int, nueva: int, descripcion: Descripcion)
      requires Valid() && p in stock
      modifies this`stock, this`movimientos
      ensures Valid()
      ensures stock == old(stock)[p := nueva]
      ensures movimientos == old(movimientos) + [Movimiento(p, nueva - old(stock)[p], descripcion)]
    {
      var m := Movimiento(p, nueva - stock[p], descripcion);
      AplicarConcatenar(inicial, movimientos, [m]);
      stock := stock[p := nueva];
      movimientos := movimientos + [m];
    }
  }

  /**
   * What a sequence of writes did, seen from before it: given the ledger
   * invariant before and after, and that only movements were appended, the
   * new stock is the old stock with the appended movements applied.
   */
  lemma StockTrasMovimientos(c: Catalogo, stock0: map<int, int>, movs0: seq<Movimiento>, nuevos: seq<Movimiento>)
    requires c.Valid()
    requires MovimientosSobre(movs0, c.inicial.Keys) && stock0 == Aplicar(c.inicial, movs0)
    requires c.movimientos == movs0 + nuevos
    ensures MovimientosSobre(nuevos, stock0.Keys)
    ensures c.stock == Aplicar(stock0, nuevos)
    ensures forall p :: p in c.stock ==> c.stock[p] == stock0[p] + SumaMovimientos(nuevos, p)
  {
    AplicarConcatenar(c.inicial, movs0, nuevos);
    forall p | p in c.stock ensures c.stock[p] == stock0[p] + SumaMovimientos(nuevos, p) {
      AplicarEsSuma(stock0, nuevos, p);
    }
  }
}
