# proyecto_backend: orders, sales, table turns and stock

This project models the back office of a restaurant written with Django.
It covers four areas:

- **Customer orders.** A `Pedido` is an order and its lines are `PedidoLinea` records. The model covers:
  - the guards on each lifecycle step;
  - the state history;
  - the line diff that turns an edited order into stock movements;
  - the repository that validates and creates orders.
- **Sales.** A `Venta` is a sale and its lines are `VentaLinea` records. The model covers:
  - creating a sale from an order;
  - the guard that decides who may void it;
  - the stock movements of a sale and of its void.
- **Table turns.** These are `Mesa` (a table), `Turno` (a turn at it) and `OrdenProducto` (one product ordered during the turn). The model covers:
  - adding, editing and deleting ordered products against a requested list;
  - the stock write that refuses to leave stock negative;
  - closing a turn into a table sale, and voiding a turn;
  - the table-number check of the table repository.
- **Smaller pieces:**
  - the older order model of `jumbo_soft`;
  - users' role sets, in the three copies of that code;
  - the stock-receipt (`Ingreso`) repository;
  - error-list flattening in the serializer;
  - the response builder;
  - the user views' filters, update and delete branches, and reset-token lookup.

Stock lives in a `Catalogo`. It maps each product to its stock, current price, name and direct-purchase flag, and it keeps the log of every stock write. Its invariant `Catalogo.Valid()` says that the stock is the initial stock with the logged movements applied. Each operation that moves stock is proved against that ledger:

- its `ensures` gives the exact movements it appends;
- lemmas turn those movements into per-product stock changes.

Entities the source updates in place are classes:

- `Pedido`, `Venta`, `Mesa` and `Turno`;
- `Usuario`;
- the order and table repositories;
- `Ingreso`;
- `Catalogo`.

Line records and order rows are values held in a sequence field of their owner. The source's line-level methods therefore become methods of the owner that take the line's index.

The modules follow the source's files:

- `Comun`: Python builtins (`int()`, `str()`, `zfill`, `capitalize`, `join`, `dict.get`)
- `Inventario`: the stock ledger
- `Usuarios`: `base/models.py`, `backend/models.py`, `jumbo_soft/models.py` (users)
- `Gastronomia`: `gastronomia/models.py`
- `GastronomiaRepositorio`: `gastronomia/repositorio.py`
- `Mesas`: `mesas/models.py`
- `MesasRepositorio`: `mesas/repositorio.py`
- `JumboSoft`: `jumbo_soft/models.py` (orders)
- `ProductoRepositorio`: `producto/repositorio.py`
- `Serializadores`: `base/serializers.py`
- `Respuestas`: `base/respuestas.py`
- `Vistas`: `base/views.py`

## Model

| member | source | states |
|---|---|---|
| `Comun.Indexar` | producto/repositorio.py:21 | Subscripting with a string key succeeds exactly on a dictionary holding the key. A missing key raises KeyError; a value that is not a dictionary raises TypeError. |
| `Comun.AEntero` | gastronomia/repositorio.py:19 | `int(v)` gives an integer value itself, a boolean 0 or 1, and a float truncated toward zero. A text converts exactly when it is an optional sign followed by digits, to the number it denotes, and otherwise raises ValueError. Every other value raises TypeError. |
| `Comun.ComoNumero` | gastronomia/repositorio.py:30 | The number a value compares as in `v <= 0`: integers, booleans (as 0 and 1) and floats have one, and nothing else does. |
| `Comun.Truncar` | producto/repositorio.py:26 | `int()` of a float drops the fractional part toward zero: the result lies between zero and the float, less than one away from it. |
| `Comun.Obtener` | base/models.py:106 | `dict.get(key)` gives the value, or `None` when the key is absent. |
| `Comun.NatATextoValor` | gastronomia/models.py:360 | `str(n)` is a digit string that denotes `n` again, with no leading zero unless `n` is 0. |
| `Comun.EnteroATexto` | mesas/models.py:505 | `str(i)` of a negative integer is a minus sign before the digits of its absolute value. |
| `Comun.ZFill` | mesas/models.py:29 | `zfill` never shortens a text. It pads to exactly the width when the text is shorter and leaves a long enough text unchanged. |
| `Comun.ZFillDigitos` | gastronomia/models.py:360 | `str(n).zfill(w)` has at least `w` digits and they still denote `n`. |
| `Comun.TextoAEntero` | base/views.py:87 | A text converts exactly when it is digits, or a `-` or `+` followed by digits. Digits give the number they denote, a `-` its negation and a `+` the same number. The empty text never converts. |
| `Comun.TextoAEnteroDeTexto` | base/views.py:87 | `int(str(i))` gives `i` back for every integer, negative ones included. |
| `Comun.ValorDigitosPositivo` | base/views.py:87 | A digit string denotes a positive number exactly when one of its digits is not `0`. |
| `Comun.Capitalizar` | base/models.py:105 | `capitalize()` keeps the length, upper-cases the first character and lower-cases every other one (ASCII letters only). |
| `Comun.CapitalizarIdempotente` | base/models.py:105 | Capitalizing twice is capitalizing once. |
| `Comun.Unir` | mesas/models.py:229 | Joining no messages gives the empty text, and joining one message gives that message. |
| `Inventario.IdTexto` | gastronomia/models.py:359-360 | An id text starts with its letter. |
| `Inventario.IdTextoDigitos` | gastronomia/models.py:572-573 | After the letter, an id text has at least five digits and they denote the id. |
| `Inventario.IdTextoInyectivo` | gastronomia/models.py:359-360 | Two ids with the same text are the same id. |
| `Inventario.NumeroMesaTexto` | mesas/models.py:24-29 | A table number's text starts with `#`. |
| `Inventario.Aplicar` | mesas/models.py:513 | Applying a log of movements keeps the set of products. |
| `Inventario.AplicarEsSuma` | mesas/models.py:513 | A log changes each product's stock by exactly the sum of that product's deltas. |
| `Inventario.AplicarConcatenar` | mesas/models.py:513 | Applying two logs one after the other is applying their concatenation. |
| `Inventario.AplicarUno` | mesas/models.py:513 | One more movement changes only its own product, by its delta. |
| `Inventario.SumaMovimientosConcatenar` | mesas/models.py:513 | A product's sum of deltas distributes over concatenated logs. |
| `Inventario.Catalogo.constructor` | mesas/models.py:513 | A new catalogue has an empty log and satisfies the ledger invariant. |
| `Inventario.Catalogo.ActualizarStock` | mesas/models.py:513 | `producto.actualizar_stock(nueva, descripcion)` sets the product's stock to `nueva`, changes no other product and logs a delta of `nueva - old`. The ledger invariant is kept. |
| `Inventario.StockTrasMovimientos` | gastronomia/models.py:245 | When only movements were appended to the log, the new stock is the old stock with those movements applied, product by product. |
| `Usuarios.Usuario.RolesEnTablaSinDuplicados` | base/models.py:74-91 | Roles drawn from the role table never hold two roles with the same id or the same name. |
| `Usuarios.Usuario.GetOperacionesAdmin` | base/models.py:127-148 | The admin menu is empty for a non-admin. For an admin it has exactly three admin entries with distinct routes. |
| `Usuarios.Usuario.constructor` | base/models.py:56-63 | A loaded user with an id gets each flag from membership of the matching role, and the admin menu as its operations. A user without an id keeps every flag false. |
| `Usuarios.Usuario.AgregarRol` | base/models.py:74-91 | A role name found in the table adds that role, and an unknown name raises without change. A `Rol` object is added, and a bare id adds nothing. A held role is never duplicated. |
| `Usuarios.Usuario.QuitarRol` | base/models.py:92-95 | Exactly the roles with that name are removed: afterwards the user does not hold it, and any other role stays. |
| `Usuarios.Usuario.ActualizarRol` | base/models.py:104-114 | A truthy `es<Rol>` flag leaves the role held, and a flag that is exactly `False` leaves it not held. An absent, `None` or other falsy flag changes nothing. Roles with any other name never change. A role missing from the table raises. |
| `Usuarios.Usuario.ActualizarRoles` | base/models.py:98-101 | Each of mozo, comensal and vendedor ends held after a truthy flag, not held after `False`, and unchanged otherwise. Admin, root and every other role are untouched. The only failure is the missing-role error, and with all three roles in the table it never raises. |
| `Usuarios.SegunBanderaSigue` | base/models.py:98-101 | Once a role follows its flag, updating another role keeps it so. |
| `Usuarios.MismoUsuario` | gastronomia/models.py:77 | Two user handles are equal, as Django model equality decides, exactly when they are the same object or carry the same primary key; equal users have equal keys. |
| `Usuarios.MismoUsuarioSimetrico` | gastronomia/models.py:77 | Model equality of users is symmetric. |
| `Usuarios.Usuario.TieneRol` | base/models.py:117-119 | The user holds the role exactly when one of its roles has that name. |
| `Usuarios.Usuario.AgregarRolComensal` | base/models.py:66-71 | Adds the comensal role, or raises the validation error without change when the table has no such role. |
| `Usuarios.Usuario.AgregarRolComensalMensaje` | jumbo_soft/models.py:69-77 | Adds the comensal role and returns `""`, or returns the failure message without change. |
| `Usuarios.Usuario.AgregarRoles` | backend/models.py:85-90 | Succeeds exactly when every name is in the table, and then adds them all. Otherwise it raises at the first unknown name, and exactly the roles before it stay added. |
| `Gastronomia.ComprobarEstadoValido` | gastronomia/models.py:21-24 | Exactly the six order states are valid. |
| `Gastronomia.SumaTotalesReemplazo` | gastronomia/models.py:380-385 | Replacing one line changes the order's sum by that line's change. |
| `Gastronomia.SumaMovsVenta` | gastronomia/models.py:491-494 | A sale's movements lower each product by the total quantity the sale holds of it. |
| `Gastronomia.CantidadAnterior` | gastronomia/models.py:215-221 | A non-zero previous quantity comes from an echoed entry with the same product and a non-zero id. With no such entry it is 0. |
| `Gastronomia.MovLinea` | gastronomia/models.py:387-404 | A line's movement is for its product and lowers stock by `cantidad - anterior`. |
| `Gastronomia.MovsLineasSinCeros` | gastronomia/models.py:223-225 | The diff never writes a zero movement, and it only touches products of the order's lines. |
| `Gastronomia.SumaMovsLineas` | gastronomia/models.py:212-225 | Per product, the first loop's movements add up to minus the sum of `cantidad - previous` over that product's lines. |
| `Gastronomia.SumaMovsBorrados` | gastronomia/models.py:227-245 | Per product, the second loop's movements give back exactly the quantities of its removed saved lines. |
| `Gastronomia.SinCambiosSinDiferencia` | gastronomia/models.py:206-225 | Echoing the order's own quantities back moves no stock. |
| `Gastronomia.Pedido.constructor` | gastronomia/models.py:31-40 | A new order is open and empty, with total 0, pick-up type, no sale and no change. |
| `Gastronomia.Pedido.ComprobarPuedeVisualizar` | gastronomia/models.py:73-78 | The owner always sees the order. Admins and sellers always see it. Nobody else does. |
| `Gastronomia.Pedido.ComprobarEstadoEnCurso` | gastronomia/models.py:48-50 | Holds only for a valid state, and never together with another state check. |
| `Gastronomia.Pedido.ComprobarEstadoAbierto` | gastronomia/models.py:53-55 | Holds only for a valid state, and never together with another state check. |
| `Gastronomia.Pedido.ComprobarEstadoRecibido` | gastronomia/models.py:58-60 | Holds only for a valid state, and never together with another state check. |
| `Gastronomia.Pedido.ComprobarEstadoAnulado` | gastronomia/models.py:63-65 | Holds only for a valid state, and never together with another state check. |
| `Gastronomia.Pedido.ComprobarEstadoDisponible` | gastronomia/models.py:68-70 | Holds only for a valid state. |
| `Gastronomia.Pedido.ComprobarPuedeEntregar` | gastronomia/models.py:81-84 | Only an available order can be handed over, and then exactly by a seller. |
| `Gastronomia.Pedido.ComprobarPuedeAnular` | gastronomia/models.py:87-94 | By state: an open order is voided exactly by its owner; an order in course or available by its owner or a seller; nobody voids a received, voided or delivered order. |
| `Gastronomia.Pedido.ComprobarPuedeMarcarDisponible` | gastronomia/models.py:97-100 | Only an order in course can be marked available, and then exactly by a seller. |
| `Gastronomia.Pedido.ComprobarPuedeEmitirComanda` | gastronomia/models.py:102-109 | Only an order in course gets a kitchen ticket, and then exactly from a seller. |
| `Gastronomia.Pedido.ComprobarTipoValido` | gastronomia/models.py:111-118 | Pick-up and delivery are exactly the valid types. |
| `Gastronomia.Pedido.ComprobarTipoDelivery` | gastronomia/models.py:120-128 | Tests the given type for delivery, or the order's own type when none is given. |
| `Gastronomia.Pedido.ComprobarTieneVuelto` | gastronomia/models.py:130-136 | The order has change to give exactly when its change amount is positive. |
| `Gastronomia.Pedido.GetCantidadProducto` | gastronomia/models.py:138-149 | The quantity of the order's first line of the product, or 0 when no line has it. |
| `Gastronomia.Pedido.GetIdTexto` | gastronomia/models.py:359-360 | The order's id text starts with `P`. |
| `Gastronomia.Pedido.ActualizarTotal` | gastronomia/models.py:178-184 | The order total becomes the sum of its line totals. |
| `Gastronomia.Pedido.AgregarEstado` | gastronomia/models.py:187-204 | The order ends in the given state. With no record of it, one is appended. Otherwise the most recent record of it gets the new date and the history keeps its length. |
| `Gastronomia.Pedido.ActualizarStockLinea` | gastronomia/models.py:387-404 | The line's product drops by `cantidad - anterior`, or by `cantidad` when there is no previous quantity or it is 0. Only that product changes and the write is logged. |
| `Gastronomia.Pedido.LimpiarStock` | gastronomia/models.py:406-418 | The line's product rises by the line's quantity. Only that product changes and the write is logged. |
| `Gastronomia.Pedido.ActualizarTotalLinea` | gastronomia/models.py:380-385 | The line's unit price becomes the product's current price and its total becomes price times quantity. Nothing else changes, and the order's sum moves by that line's change. |
| `Gastronomia.Pedido.ActualizarStock` | gastronomia/models.py:206-245 | The log grows by one movement per changed line, then one per removed saved line. Per product, stock drops by the quantity added to the order and rises by what removed lines held. The ledger invariant is kept. |
| `Gastronomia.Pedido.ActualizarStockLineas` | gastronomia/models.py:212-225 | The first loop appends exactly the changed lines' movements, in line order. |
| `Gastronomia.Pedido.RestituirBorrados` | gastronomia/models.py:227-245 | The second loop appends exactly one give-back per saved echoed line whose id no current line carries, when its product exists. |
| `Gastronomia.Pedido.BuscarCantidadAnterior` | gastronomia/models.py:215-221 | The inner loop finds the previous quantity of `CantidadAnterior`: the last matching entry wins. |
| `Gastronomia.Pedido.ExisteLinea` | gastronomia/models.py:228-233 | The inner loop answers whether some current line has the echoed id. |
| `Gastronomia.Pedido.CrearVenta` | gastronomia/models.py:258-279 | Creates a fresh online sale of the owner, linked to the order. It has one line per order line, with the same product and quantity at the current price. Its total is the sum of the line totals. No stock moves. |
| `Gastronomia.Pedido.AnularVenta` | gastronomia/models.py:281-290 | Without a sale, nothing moves. With one, only the sale's void date and the stock change: the sale becomes voided with its lines and total kept, the log grows by its void movements, and every product drops by the quantity the sale holds of it. |
| `Gastronomia.CantidadPrimera` | gastronomia/models.py:427-436 | The quantity of the first line of the product, or 0 when there is none. |
| `Gastronomia.IndiceUltimo` | gastronomia/models.py:189 | The index of a record of the state with the latest date, or none exactly when the state has no record. |
| `Gastronomia.Venta.constructor` | gastronomia/models.py:453-458 | A new sale has total 0, no lines and no void date. |
| `Gastronomia.Venta.GetIdTexto` | gastronomia/models.py:572-573 | The sale's id text starts with `V`. |
| `Gastronomia.Venta.AgregarLinea` | gastronomia/models.py:710-715 | Saving a sale line appends it and leaves the other lines alone. |
| `Gastronomia.Venta.ComprobarPuedeVisualizar` | gastronomia/models.py:497-500 | Exactly admins and sellers see sales. |
| `Gastronomia.Venta.ComprobarAnulada` | gastronomia/models.py:517-519 | A sale is voided exactly when it has a void date. |
| `Gastronomia.Venta.ComprobarPuedeAnular` | gastronomia/models.py:503-514 | Only an admin or a seller voids a sale, and only one not yet voided. A counter sale can be voided, an online sale only while its order is available, and a table sale never. |
| `Gastronomia.Venta.ActualizarTotalLinea` | gastronomia/models.py:732-736 | The line total becomes price times quantity, and no other line changes. |
| `Gastronomia.Venta.ActualizarLineas` | gastronomia/models.py:476-479 | Every line total becomes its price times its quantity. |
| `Gastronomia.Venta.ActualizarTotal` | gastronomia/models.py:482-488 | The sale total becomes the sum of its line totals. |
| `Gastronomia.Venta.Actualizar` | gastronomia/models.py:472-474 | Line totals are recomputed first, then the sale total is their sum. |
| `Gastronomia.Venta.CrearMovimiento` | gastronomia/models.py:718-726 | The line's product drops by the line's quantity. Only that product changes and the write is logged. |
| `Gastronomia.Venta.AnularLinea` | gastronomia/models.py:739-747 | Voiding a line also lowers its product by the line's quantity, logged as a void. |
| `Gastronomia.Venta.MoverLinea` | gastronomia/models.py:718-747 | One movement per line: minus the line's quantity, for the line's product. |
| `Gastronomia.Venta.MoverLineas` | gastronomia/models.py:491-494 | The log grows by exactly one movement per line, in line order. |
| `Gastronomia.Venta.CrearMovimientos` | gastronomia/models.py:491-494 | One movement per line. Every product's stock drops by the quantity the sale holds of it. |
| `Gastronomia.Venta.Anular` | gastronomia/models.py:541-545 | The sale gets its void date, so `comprobar_anulada` holds. Every product's stock drops by the quantity the sale holds of it, as the code writes it. |
| `Gastronomia.LibroTrasVenta` | gastronomia/models.py:491-494 | After a sale's movements, each product's stock is its earlier stock minus the quantity sold. |
| `GastronomiaRepositorio.ValidarLineaPedido` | gastronomia/repositorio.py:25-31 | A line passes exactly when its product id and quantity are positive numbers (integers, booleans or floats, compared as Python compares them). A missing or non-positive product id gets the product message first, then a bad quantity gets the quantity message. |
| `GastronomiaRepositorio.ValidarLineasPedido` | gastronomia/repositorio.py:25-31 | The lines pass exactly when every line is valid. Otherwise the error is that of the first invalid line. |
| `GastronomiaRepositorio.ValidarLineas` | gastronomia/repositorio.py:21-31 | Missing lines are accepted as an empty list. Lines that are not a list are refused with their message. A list is checked line by line. |
| `GastronomiaRepositorio.ValidarCrearPedido` | gastronomia/repositorio.py:18-31 | As written: a missing id raises KeyError, a negative integer id is refused, any text id raises. A request passes exactly with a non-negative integer, boolean or float id and acceptable lines. |
| `GastronomiaRepositorio.ValidarCrearPedidoCorregido` | gastronomia/repositorio.py:19-20 | As intended: the id is converted first. A negative number is refused, a non-negative one goes on to the line checks, and an unconvertible id raises what `int()` raises. |
| `GastronomiaRepositorio.IdTextoRechazado` | gastronomia/repositorio.py:19 | On `{"id": "7"}` the code raises and the intended check passes. On `{"id": "-3"}` the code raises TypeError where the intended check refuses. |
| `GastronomiaRepositorio.CorregidoCoincideConNumeros` | gastronomia/repositorio.py:19 | On an integer or boolean id the written and the intended check decide alike. |
| `GastronomiaRepositorio.IdFlotante` | gastronomia/repositorio.py:19-31 | A line with quantity 1.5 passes, and the id 2.0 passes both readings. The id -0.5 is refused as written (`-0.5 < 0`) and passes as intended (`int(-0.5)` is 0). |
| `GastronomiaRepositorio.ConId` | gastronomia/repositorio.py:10 | Exactly the saved orders with that key, at most one when keys are unique. |
| `GastronomiaRepositorio.ConEstado` | gastronomia/repositorio.py:12 | Exactly the owner's saved orders in that last state. |
| `GastronomiaRepositorio.GetPedido` | gastronomia/repositorio.py:7-14 | By key when one is given, else by owner and state when both are given, else nothing. A missing order is `None` and several matches raise. With unique keys the lookup by key never raises. |
| `GastronomiaRepositorio.CrearLineaPedido` | gastronomia/repositorio.py:48-54 | A missing product raises. Otherwise the line has the item's product and quantity, and its totals are unset. |
| `GastronomiaRepositorio.CrearLineaPedidoCorregida` | gastronomia/repositorio.py:48-54 | Same as `crear_linea_pedido`, plus the unit price is the current price and the total is price times quantity. |
| `GastronomiaRepositorio.LineasGuardadas` | gastronomia/repositorio.py:42-44 | One saved line per item, in order, with consecutive keys and current prices. |
| `GastronomiaRepositorio.PrimerFaltante` | gastronomia/repositorio.py:42-44 | The position of the first item whose product is missing: every item before it exists. |
| `GastronomiaRepositorio.PrimerFaltanteEs` | gastronomia/repositorio.py:42-44 | The first missing position is unique. |
| `GastronomiaRepositorio.Pedidos.constructor` | gastronomia/repositorio.py:34-35 | An empty order table whose next key is 1. |
| `GastronomiaRepositorio.Pedidos.ObtenerPedido` | gastronomia/repositorio.py:35-41 | With id ≤ 0 a fresh open order with total 0 is saved under a new key. With id > 0 the saved order with that key is taken, and its absence raises without change. |
| `GastronomiaRepositorio.Pedidos.GuardarLinea` | gastronomia/repositorio.py:44 | Saving a line without totals raises IntegrityError without change. Any other line is appended under a fresh key. |
| `GastronomiaRepositorio.Pedidos.GuardarLineas` | gastronomia/repositorio.py:42-44 | As written, the first item raises and no line is added. With totals computed, the lines up to the first missing product are added, and the call succeeds exactly when every product exists. |
| `GastronomiaRepositorio.Pedidos.CrearPedido` | gastronomia/repositorio.py:34-45 | As written: an unknown id raises. A request with lines never returns an order, and no saved order gains a line. |
| `GastronomiaRepositorio.Pedidos.CrearPedidoCorregido` | gastronomia/repositorio.py:34-45 | With line totals computed: the order gets one priced line per item, up to the first missing product, which raises. No other order changes. |
| `Mesas.EntregadoEfectivo` | mesas/models.py:206-208 | An absent or empty `entregado` counts as 0, and any other value is kept. |
| `Mesas.IdsPedidos` | mesas/models.py:190-193 | The requested product ids, one per entry, in order. |
| `Mesas.IdsProductos` | mesas/models.py:241-251 | The product id of every order, in order. |
| `Mesas.SinEntregar` | mesas/models.py:294-305 | Exactly the orders with a positive quantity left to deliver. |
| `Mesas.IndiceOrden` | mesas/models.py:253-260 | The first order of the product, or none exactly when no order has it. |
| `Mesas.IndiceOrdenMismoProducto` | mesas/models.py:213-218 | Editing an order without changing its product keeps every product's first order. |
| `Mesas.IndiceOrdenAgregar` | mesas/models.py:220-221 | Appending an order keeps every existing first order, and makes the new order first for a product that had none. |
| `Mesas.CantidadesCompletas` | mesas/models.py:200-225 | Once every entry is applied, the first order of each requested product holds that product's last requested quantity. |
| `Mesas.Conservadas` | mesas/models.py:172-182 | The kept orders are all of requested products. |
| `Mesas.Fuera` | mesas/models.py:172-182 | The deleted orders are all of unrequested products, and there are no more of them than orders. |
| `Mesas.NadaPedido` | mesas/models.py:190-198 | With nothing requested, every order is deleted and none is kept. |
| `Mesas.FueraSobre` | mesas/models.py:172-182 | The deleted orders are of catalogue products when all orders are. |
| `Mesas.FueraCantidades` | mesas/models.py:172-182 | The deleted orders have no negative quantity when no order has one. |
| `Mesas.ParticionCantidades` | mesas/models.py:172-182 | Every order is either kept or deleted: per product, the kept and the deleted quantities add up to all of them, and so do the counts. |
| `Mesas.CantidadOrdenesConcatenar` | mesas/models.py:172-182 | A product's ordered quantity distributes over concatenated order lists. |
| `Mesas.ConservadasPaso` | mesas/models.py:172-182 | One more order adds itself to the kept ones exactly when its product is requested. |
| `Mesas.ConcatenarConservadas` | mesas/models.py:172-182 | The kept orders of concatenated lists are the concatenated kept orders. |
| `Mesas.BorrarFueraConserva` | mesas/models.py:172-182 | With no negative stock or quantity, deleting the unrequested orders conserves, per product, stock plus the quantity still held in orders. |
| `Mesas.IndiceTrasConservadas` | mesas/models.py:174-180 | After the kept orders of a prefix, the first order of an unrequested product at the head of the rest is that head. |
| `Mesas.MovsBorrarOrdenes` | mesas/models.py:232-239 | The movements of deleting the orders stay within the catalogue's products. |
| `Mesas.BorrarOrdenesRestituye` | mesas/models.py:232-239 | With non-negative stock and quantities, deleting the orders gives each product back exactly the quantity its orders held. |
| `Mesas.NoNegativoTransitivo` | mesas/models.py:498-514 | Two writes that never make stock negative compose into one that does not either. |
| `Mesas.BorrarOrdenesSiguiente` | mesas/models.py:237-239 | One deletion extends the log and the stock by the next movement of the deletion log. |
| `Mesas.IndiceFuera` | mesas/models.py:174-180 | Partway through the loop, the first order of the next unrequested id is that very order. |
| `Mesas.TrasConservarPaso` | mesas/models.py:174-180 | A requested id deletes nothing and moves the loop state one id on. |
| `Mesas.TrasBorrarFueraPaso` | mesas/models.py:174-180 | Deleting the next unrequested order as `borrar` does moves the loop state one id on: it joins the deleted orders and its movement, if any, is logged. |
| `Mesas.FueraPaso` | mesas/models.py:174-180 | An unrequested order joins the end of the deleted ones and leaves the kept ones as they were. |
| `Mesas.BorrarUnaMas` | mesas/models.py:237-239 | Deleting one more order as `borrar` does extends the deletion log and the stock by exactly that order's movement. |
| `Mesas.TrasBorrarFueraExtremos` | mesas/models.py:172-182 | Before the first id nothing is deleted. After the last, the orders are the kept ones and the log and stock hold exactly the deletion of the unrequested ones. |
| `Mesas.SumaVentaEsTotal` | mesas/models.py:395-400 | A sale whose lines copy the orders at current prices totals what `get_total` gives. |
| `Mesas.Llamados` | mesas/models.py:96 | Exactly the users with that first name. |
| `Mesas.GetCantidadRestante` | mesas/models.py:465-473 | What is left plus what was delivered is the quantity, so something is left exactly when less than the quantity was delivered. |
| `Mesas.Mesa.constructor` | mesas/models.py:72-87 | A new table is available and has had no turn, so it can be deleted and edited. |
| `Mesas.Mesa.ComprobarPuedeBorrarse` | mesas/models.py:72-78 | A table that never had a turn can be deleted, and then it can also be edited. |
| `Mesas.Mesa.ComprobarPuedeEditarse` | mesas/models.py:80-87 | A table can be edited exactly when it is not occupied. |
| `Mesas.Mesa.CrearTurno` | mesas/models.py:89-106 | A unique waiter with that name gets a fresh open turn, and the table becomes occupied, so it can no longer be deleted or edited. No waiter, or several, raise without change. |
| `Mesas.Turno.constructor` | mesas/models.py:121-126 | A new turn is open, has no end time, no sale and no orders. |
| `Mesas.Turno.ComprobarAbierto` | mesas/models.py:128-135 | An open turn is neither closed nor voided, and a consistent turn is open exactly when it is neither. |
| `Mesas.Turno.ComprobarCerrado` | mesas/models.py:137-144 | A closed turn is not voided, and a consistent turn is closed exactly in the closed state. |
| `Mesas.Turno.ComprobarAnulado` | mesas/models.py:146-152 | A consistent voided turn has an end time. |
| `Mesas.Turno.ComprobarPuedeCerrar` | mesas/models.py:154-160 | A turn that cannot be closed has no orders, so nothing left to deliver. |
| `Mesas.Turno.GetTotal` | mesas/models.py:395-400 | The sum over the orders of current price times quantity. |
| `Mesas.Turno.GetOrdenesSinEntregar` | mesas/models.py:294-305 | Exactly the orders with something left to deliver. |
| `Mesas.Turno.ActualizarStockProducto` | mesas/models.py:492-514 | An unchanged quantity writes nothing and reports nothing. Otherwise `stock + anterior - nueva` is written when it is not negative. When it is negative, exactly one shortage message is returned and stock is unchanged. A write never makes stock negative. |
| `Mesas.Turno.Borrar` | mesas/models.py:482-490 | The order is deleted, and its whole quantity goes back to stock when that write is allowed. A write never makes stock negative. |
| `Mesas.Turno.BorrarOrdenes` | mesas/models.py:232-239 | Every order is deleted. The log grows by the deletion movements, and the stock is the old stock with them applied. |
| `Mesas.Turno.BorrarSiguiente` | mesas/models.py:237-239 | One loop turn deletes the next order and extends the log accordingly. |
| `Mesas.Turno.BorrarOrdenesNoExistentes` | mesas/models.py:172-182 | Afterwards the orders are exactly those of requested products, in their order. The unrequested orders are deleted in their order: the log grows by exactly their deletion movements and the stock is the old stock with them applied. Stock never becomes negative. |
| `Mesas.Turno.BorrarNoExistenteSiguiente` | mesas/models.py:174-180 | One loop turn: an unrequested id deletes its first order, and a requested one changes nothing, keeping the loop invariant. |
| `Mesas.Turno.BorrarOrdenPorIdProducto` | mesas/models.py:162-170 | Without an order of the product nothing changes. Otherwise its first order is deleted, and its quantity goes back to stock and is logged exactly when it is non-zero and the resulting stock is not negative. |
| `Mesas.Turno.AgregarEditarOrdenes` | mesas/models.py:184-230 | An empty request deletes every order. A missing product makes the call fail. Otherwise only requested products have orders, and on success each product's first order holds its last requested quantity. The unrequested orders are first deleted with exactly their deletion movements logged; later writes only extend the log. Any other failure is the validation error. Stock never becomes negative. |
| `Mesas.Turno.AgregarEditarPedidas` | mesas/models.py:200-225 | The loop stops exactly at the first missing product and keeps the per-entry progress invariant. |
| `Mesas.Turno.AgregarEditarSiguiente` | mesas/models.py:200-225 | One entry: a missing product adds its message and stops the loop. Otherwise the entry is applied. |
| `Mesas.Turno.BorrarNoPedidas` | mesas/models.py:190-198 | The kept orders are exactly those of requested products, so an empty request deletes them all. The log grows by exactly the deletion movements of the unrequested orders, and the stock is the old stock with them applied. |
| `Mesas.Turno.AgregarEditarOrden` | mesas/models.py:209-225 | The first order of the entry's product is edited: its quantity and delivered amount are overwritten and stock moves by the difference when that is allowed. With no such order one is created and stock drops by its quantity, or, on a shortage, exactly one shortage message is returned and nothing changes. The log only grows. |
| `Mesas.Turno.EditarOrden` | mesas/models.py:213-218 | Quantity and delivered amount are always overwritten. Stock moves by the old quantity minus the new one, logged as an edit, exactly when that change is non-zero and leaves stock not negative; otherwise stock and log are unchanged. |
| `Mesas.Turno.CrearOrden` | mesas/models.py:219-225 | The order is kept, and stock drops by its quantity and the creation is logged, exactly when stock suffices. Otherwise it is deleted again, one shortage message is returned and stock and log are unchanged. |
| `Mesas.Turno.Cerrar` | mesas/models.py:307-341 | The turn is closed at the given time and the table is freed and editable. A fresh table sale of the turn's creator has one line per order at the current price, and its total equals `get_total`. Every order is marked delivered and stock is untouched. |
| `Mesas.Turno.Anular` | mesas/models.py:271-281 | The turn is voided at the given time and the table is freed and editable. Stock is untouched. |
| `MesasRepositorio.PrimeraConNumero` | mesas/repositorio.py:24 | The table with the number and the smallest key, or none exactly when no table has that number. |
| `MesasRepositorio.ComprobarNumeroRepetido` | mesas/repositorio.py:17-26 | With `pk == 0`, a repeat exactly when some table has the number. With `pk > 0`, a repeat when the first such table is another one. A negative `pk`, or an unused number, is never a repeat. |
| `MesasRepositorio.RepetidoAlEditar` | mesas/repositorio.py:17-26 | Under unique keys and numbers, renumbering a table repeats exactly when another table has the number. Keeping one's own number is no repeat. |
| `MesasRepositorio.TablaMesas.constructor` | mesas/repositorio.py:29-38 | An empty table of tables whose keys are valid. |
| `MesasRepositorio.TablaMesas.CrearMesa` | mesas/repositorio.py:29-38 | A fresh available table with the number and description is appended under a new key, after which the number counts as taken. |
| `MesasRepositorio.ActualizarMesa` | mesas/repositorio.py:41-51 | Number and description are replaced. The state and the turn count stay. |
| `JumboSoft.ComprobarEstadoValido` | jumbo_soft/models.py:199-201 | Only open and closed are valid. Received and cancelled are refused although they are states. |
| `JumboSoft.Pedido.constructor` | jumbo_soft/models.py:211-215 | A created order is open and its history holds exactly one open record. |
| `JumboSoft.Pedido.ComprobarPuedeVisualizar` | jumbo_soft/models.py:237-242 | The owner, admins and sellers see the order, and nobody else does. |
| `JumboSoft.Pedido.ComprobarEstadoCerrado` | jumbo_soft/models.py:221-223 | Holds only for a valid state, and never together with another state check. |
| `JumboSoft.Pedido.ComprobarEstadoAbierto` | jumbo_soft/models.py:225-227 | Holds only for a valid state, and never together with another state check. |
| `JumboSoft.Pedido.ComprobarEstadoRecibido` | jumbo_soft/models.py:229-231 | Holds only for a state `comprobar_estado_valido` refuses, and never together with the cancelled check. |
| `JumboSoft.Pedido.ComprobarEstadoCancelado` | jumbo_soft/models.py:233-235 | Holds only for a state `comprobar_estado_valido` refuses. |
| `JumboSoft.Pedido.ComprobarPuedeEntregar` | jumbo_soft/models.py:244-248 | Only a closed order is handed over, and then exactly by a seller or an admin. |
| `JumboSoft.Pedido.ComprobarPuedeCancelar` | jumbo_soft/models.py:250-256 | An open order is cancelled exactly by its owner, a closed one exactly by a seller, and no other one at all. |
| `JumboSoft.Pedido.ActualizarTotal` | jumbo_soft/models.py:258-264 | Loading the lines (each load runs `PedidoLinea.__init__`, lines 291-301) re-prices each one at its product's current price, with products and quantities kept; the order total is then the sum of the re-priced line totals, which is the lines' value at current prices, whatever totals were stored before. |
| `JumboSoft.SumaVigenteRepreciadas` | jumbo_soft/models.py:258-264 | Once every line's total is its current price times its quantity, the sum of the stored totals is the lines' value at current prices. |
| `JumboSoft.SumaVigenteRepreciar` | jumbo_soft/models.py:291-301 | Re-pricing every line keeps the lines' value at current prices, and the re-priced totals add up to it. |
| `JumboSoft.Pedido.AgregarEstado` | jumbo_soft/models.py:266-272 | A record is appended and the state set only when the history lacks that state; otherwise nothing changes. Afterwards the state is recorded, and at most one record per state is kept. |
| `JumboSoft.Pedido.BorrarDatosPedido` | jumbo_soft/models.py:274-277 | History and lines are emptied, so the order counts as empty. |
| `JumboSoft.Pedido.RecibirPedido` | jumbo_soft/models.py:279-281 | The received state is recorded once; if already recorded nothing changes. |
| `JumboSoft.Pedido.ActualizarTotalLinea` | jumbo_soft/models.py:296-301 | Only that line changes. Its unit price is the current price and its total is price times quantity. |
| `JumboSoft.Pedido.AgregarLinea` | jumbo_soft/models.py:291-294 | A created line is appended with computed totals, and the order's sum grows by its total. |
| `JumboSoft.IndicePrimero` | jumbo_soft/models.py:267 | Finds a record of the state, or none exactly when the history lacks it. |
| `ProductoRepositorio.IdProducto` | producto/repositorio.py:20-23 | The nested product id when the line has one, else 0. |
| `ProductoRepositorio.ValidarLineaIngreso` | producto/repositorio.py:19-31 | A line passes exactly when it is a well-formed receipt line. A missing or non-positive product id gets the product message. As written the numeric-value messages are never produced. As intended, a quantity or price that does not convert gets its message. |
| `ProductoRepositorio.ValidarLineasIngreso` | producto/repositorio.py:19-31 | All lines valid, or the error of the first invalid one. |
| `ProductoRepositorio.ValidarCrearIngreso` | producto/repositorio.py:14-31 | Missing lines are accepted as empty. A non-list is refused with its message. A list is checked line by line, as written. |
| `ProductoRepositorio.ValidarCrearIngresoCorregido` | producto/repositorio.py:26-31 | The same checks, with a non-numeric quantity or price reported by its message. |
| `ProductoRepositorio.MensajesNumericosInalcanzables` | producto/repositorio.py:27-31 | As written no request ever gets either numeric-value message. |
| `ProductoRepositorio.CantidadNoNumerica` | producto/repositorio.py:26-28 | A quantity `"x"` raises ValueError as written and gets the quantity message as intended. |
| `ProductoRepositorio.CantidadFlotante` | producto/repositorio.py:6-60 | Floats convert by truncation: a line with quantity 1.5 and price 2.0 is valid, the key 2.0 finds product 2, and quantity 0.5 makes no line. |
| `ProductoRepositorio.MismasAceptadas` | producto/repositorio.py:14-31 | The written and the intended validator accept exactly the same requests. |
| `ProductoRepositorio.BuscarProducto` | producto/repositorio.py:6-10 | A `None` key finds nothing without error. Otherwise the product with the converted key, `None` exactly when it is missing, and the conversion's own error exactly when the key does not convert. |
| `ProductoRepositorio.LineaIngreso` | producto/repositorio.py:45-60 | A missing product raises. A product not bought directly raises naming it, before the quantity is looked at. A zero quantity makes no line, and any other quantity makes exactly one with the item's product, quantity and price. |
| `ProductoRepositorio.LineasIngreso` | producto/repositorio.py:38-39 | At most one line per item, each of an existing product with a non-zero quantity. |
| `ProductoRepositorio.PrefijoFallido` | producto/repositorio.py:38-39 | Once an item has raised, later items change nothing. |
| `ProductoRepositorio.Ingreso.constructor` | producto/repositorio.py:36-37 | A new receipt of the user with no lines and its total not yet computed. |
| `ProductoRepositorio.Ingreso.CrearLineaIngreso` | producto/repositorio.py:45-60 | The decided line, if any, is appended. Otherwise the lines are unchanged. |
| `ProductoRepositorio.CrearIngreso` | producto/repositorio.py:35-41 | The receipt is fresh. Its lines are those of the items before the first failure, at most one per item. The total is recomputed exactly when no item raised. |
| `Serializadores.Primero` | base/serializers.py:15 | The first element of a non-empty list or the first character of a non-empty text. An empty one raises IndexError, a dictionary KeyError and anything else TypeError. |
| `Serializadores.Anidado` | base/serializers.py:19-21 | The nested dictionary exactly when the first error is one. |
| `Serializadores.Paso` | base/serializers.py:13-21 | One key only ever adds messages after the earlier ones. An exception ends the call and is kept. |
| `Serializadores.ErroresHasta` | base/serializers.py:13-21 | A successful walk has read every key's first error. |
| `Serializadores.ErrorDefinitivo` | base/serializers.py:13-21 | After a key raises, later keys change nothing. |
| `Serializadores.GetErroresLista` | base/serializers.py:10-22 | The loop computes exactly the recursive flattening of the error dictionary. |
| `Serializadores.UnaLineaPorClave` | base/serializers.py:16-18 | When every first error is a text, the result is one `Key: Error` line per key, in key order. |
| `Serializadores.PasoDeTexto` | base/serializers.py:16-18 | A key whose first error is a text adds exactly its line. |
| `Serializadores.SoloCuentaElPrimero` | base/serializers.py:15 | Only each key's first error matters. |
| `Serializadores.OtrosTiposNoAportan` | base/serializers.py:16-21 | Keys whose first error is neither a text nor a dictionary add nothing. |
| `Serializadores.PasoTrasSeguidos` | base/serializers.py:13-21 | The walk commutes with concatenating earlier messages. |
| `Serializadores.PrefijoDeClaves` | base/serializers.py:13-21 | The messages of the first keys do not depend on the keys after them. |
| `Serializadores.ClavesConcatenadas` | base/serializers.py:13-21 | Messages follow key order: concatenating dictionaries concatenates their messages. |
| `Serializadores.UnaClaveAnidada` | base/serializers.py:19-21 | A single key with a nested dictionary gives exactly that dictionary's messages. |
| `Serializadores.EmpalmeAnidado` | base/serializers.py:19-21 | A nested dictionary's messages are spliced in at its key's position. |
| `Serializadores.ToRepresentation` | base/serializers.py:42-46 | The representation has the same fields plus `password`, which is always empty. Every other field is kept. |
| `Serializadores.ContrasenaOculta` | base/serializers.py:42-46 | Two users differing only in their password are represented identically. |
| `Respuestas.GetRespuesta` | base/respuestas.py:8-25 | A truthy `exito` without a code gives 200. Exactly `False` without a code gives 400. An explicit code is kept, and another falsy value leaves the code unset. A dictionary `datos` is merged over the body. A non-empty list leaves `datos` bound to its last element. Anything else adds nothing. |
| `Respuestas.Exito` | base/respuestas.py:29-30 | Status 200 with success and an empty message. |
| `Respuestas.RespuestaFija` | base/respuestas.py:34-79 | Each fixed helper answers its message. The two success helpers give 200 and the others 400. |
| `Vistas.Parametro` | base/views.py:81 | The query text of the key, or `None` when absent. |
| `Vistas.FiltraDni` | base/views.py:86-88 | The dni filter applies exactly when `dni` is given, numeric, and has a digit other than `0`. |
| `Vistas.EnteroParametro` | base/views.py:101-102 | An absent parameter gives the default. A present one converts exactly when it is digits with an optional sign, to the number it denotes, and otherwise raises ValueError. |
| `Vistas.FiltrosDeBusqueda` | base/views.py:80-98 | The name and role filters are present exactly when the parameter is not the empty text, an absent one included. The dni filter is present exactly for a positive number, and the enabled filter exactly for a non-empty state. No other filter appears. |
| `Vistas.GetFiltros` | base/views.py:77-107 | The search filters plus `offset = (page-1)·rows` and `limit = offset + rows`, so the window holds exactly `rows` records. A page parameter that is not numeric raises ValueError. |
| `Vistas.SinNulos` | base/views.py:81-93 | Keeps exactly the filters whose value is not `None`. |
| `Vistas.GetFiltrosCorregido` | base/views.py:81-93 | Succeeds exactly when `get_filtros` does, with exactly its non-`None` filters. |
| `Vistas.FiltrosCorregidos` | base/views.py:81-93 | The corrected filters search by name (role) exactly when the query has a non-empty `nombre` (`rol`), and keep every other filter. |
| `Vistas.FiltroNombreNulo` | base/views.py:81-93 | An empty query gets name and role filters of `None`. The corrected filters hold only the page window. |
| `Vistas.ActualizarPassword` | base/views.py:166-172 | An empty password keeps the stored one, any other text stores its hash, `None` stores an unusable password, another value raises TypeError and a missing one raises KeyError. The hash of the empty text is never newly stored. |
| `Vistas.HacerPassword` | base/views.py:166-172 | `make_password`: a text gives its hash and `None` an unusable password; any other value raises TypeError. |
| `Vistas.UnicoConToken` | base/views.py:316 | The user found holds the token and is the only one who does. With no holder, nothing is found. |
| `Vistas.ConToken` | base/views.py:316 | Exactly the users holding the token. |
| `Vistas.TokenVigente` | base/views.py:317-323 | As written, a token without a reset date is always valid, and one with a date is valid exactly while less than two days have elapsed. |
| `Vistas.TokenDeCasiDosDias` | base/views.py:320-323 | A token 2 days minus 1 second old is accepted as written and refused under the one-day limit. |
| `Vistas.CorregidoMasEstricto` | base/views.py:320-323 | Whatever the one-day check accepts, the written check accepts. |
| `Vistas.BuscarUsuarioTokenReset` | base/views.py:314-326 | As written: the sole holder of the token, when it has no reset date or at most one whole day has elapsed. |
| `Vistas.BuscarUsuarioTokenResetCorregido` | base/views.py:312-326 | The sole holder of the token whose reset date, if any, is at most one day old. Whatever it finds, the written lookup finds too. |
| `Vistas.Destroy` | base/views.py:146-163 | A reason disables the user and records it, without deleting. Without a reason, a deletable user is deleted and any other one is refused with 400. |
| `Vistas.RutaAdmin` | base/views.py:47 | The request is on the admin route exactly when it carries `tipoRuta` equal to `"admin"`; an absent one means the common route. |
| `Vistas.RutaDenegada` | base/views.py:47-48 | Only an admin-route request is refused, and never one from an admin. |
| `Vistas.ListaDeTextos` | base/views.py:65-66 | The error messages as a list value, one text per message. |
| `Vistas.Update` | base/views.py:44-74 | An admin route from a non-admin is refused with 400 and nothing changes. `habilitado=true` enables the user and clears the remark, and nothing else. Otherwise the password and dni lookups may raise, serializer errors are answered without change, or the user is saved. On the admin route each of mozo, comensal and vendedor then follows its `es<Rol>` flag; the only role failure is the missing-role error. The roles stay table rows. |
| `Vistas.GuardarCambios` | base/views.py:61-74 | The three outcomes after the admin and enabling checks: a raised lookup, serializer errors without change, or the save, which on the admin route leaves each of mozo, comensal and vendedor as its `es<Rol>` flag says. |
| `Vistas.Guardar` | base/views.py:69-74 | Stores the new password. On the admin route each of mozo, comensal and vendedor ends held after a truthy flag, not held after `False`, and unchanged otherwise; off it the roles are untouched. A failure is only the missing-role error. Answers 200 with the representation and the admin flag. |
| `Vistas.CambiarPassword` | base/views.py:285-300 | The user found by the token gets the new password (its hash, or an unusable one for `None`) and loses its token and token date, and the success helper answers. Any failure changes no user, not even a token date, and answers with the general error. No other user changes. |
| `Vistas.Restablecer` | base/views.py:293-296 | The new password is stored and the token and its date are cleared. |

## Left out

- `Producto.actualizar_stock` is defined in none of these files. It is modelled as `Inventario.Catalogo.ActualizarStock`: it sets the product's stock and appends a movement whose delta is the change. No further ledger rule is assumed.
- Money amounts stored as `FloatField` (totals, prices, change) are integers here. Rounding is not modelled.
- The clock (`datetime.now`, `today`) is a parameter `ahora` in seconds. `timedelta.days` is the floor of seconds over 86400. Time zones are not modelled.
- Database I/O, `save()` and transactions are not modelled. The ORM queries are functions over the saved rows:
  - `get` fails on zero or several matches;
  - `filter(...).first()` takes the first match;
  - `count` and `all` are plain reads.
- Line records (`PedidoLinea`, `VentaLinea`, `OrdenProducto`, `Estado`) are values in their owner's sequence, not separately saved objects. Aliasing between two handles on one row is not captured.
- `GastronomiaRepositorio.ConEstado`: the ORM filter on the order's user compares user objects. The owner checks use `Usuarios.MismoUsuario` (primary-key equality), but this query does not, so two loaded handles of one user row count as different users here.
- `Venta.turno` is the turn's id, not the object.
- `Mesa.comprobar_puede_borrarse` counts turns with a counter field `turnos`.
- The user model's `comprobar_puede_borrarse`, which `destroy` calls, is defined in none of these files. It is a parameter of `Vistas.Destroy`.
- E-mail sending, token generation, `crear_usuario`, `validar_token_email`, `olvido_password` and `validar_token_password` are left out. They depend on mail, random secrets and templates.
- `make_password` is a symbolic `Hash(text)`, and `None` gives the unusable password `Inutilizable`. Any other value takes the error path.
- `Vistas.CambiarPassword` uses the one-day token lookup, as the corrected model does everywhere. A missing token or password, or a password that is neither text nor `None`, takes the general error path. The check for the HTTP method is not modelled.
- `Vistas.CambiarPassword`: a `None` token is a lookup failure here. In Django, `get(token_reset=None)` looks for a user without a token, and that lookup is not modelled.
- `Vistas.Update`: the `dni` blank-to-`None` normalisation and the serializer's own field validation are not modelled. The serializer's verdict is a parameter, as is the representation it produces. When `errores` is given as `None` the serializer's `self.errors` is used, and that default is not modelled.
- `Respuestas.GetRespuesta`: how the framework treats a response whose status was left unset is not modelled.
- `Serializadores.GetErroresLista`: indexing a dictionary error with `[0]` is modelled as raising KeyError, since dictionary keys here are texts.
- `Comun.TextoAEntero`: `int()` is modelled on ASCII digits with an optional sign. Surrounding white space, `_` digit separators and Unicode digits, which Python's `int()` also accepts, are not modelled.
- `Comun.AEntero`: converts text through `Comun.TextoAEntero`, so it shares that limit.
- `Comun.Truncar`: a float is an exact real here. Rounding of binary floats is not modelled, and neither are the non-finite values `NaN` and `Infinity` that Python's JSON decoder also accepts, on which `int()` raises.
- `Vistas.Update`, `Vistas.GuardarCambios`, `Vistas.Guardar`, `Vistas.Destroy`, `Vistas.CambiarPassword`: the views import a class `Respuesta` from `base/respuestas.py` and call methods on an instance of it (base/views.py:16, 21). That module defines only module-level functions, and the listing call also passes a `formatear` argument that `get_respuesta` does not take (base/views.py:144). The model assumes those methods behave as the module functions `Respuestas.GetRespuesta` and `Respuestas.RespuestaFija`.
- `Vistas.EnteroParametro`: converts through `Comun.TextoAEntero`, so it shares that limit.
- `Comun.EsNumerico`: `isnumeric()` is modelled on ASCII digits; Unicode numeric characters are not.
- `Comun.Capitalizar`: case mapping covers ASCII letters only; Python's Unicode case mapping (accented letters, `ß`, title-case digraphs) is not modelled.
- `Mesas.Turno.AgregarEditarOrdenes`: the pandas DataFrame that extracts the requested product ids is a plain map over the entries.
- `Mesas.Turno.AgregarEditarOrdenes`: for a missing product, the source appends its message and then fails to save an order without a product. The model stops there with `Integridad`, so only the error kind is modelled, not the database's message.
- `accion.title()` is modelled as `capitalize()`. The three actions are single words, so the two agree.
- The remaining query-string, formatting and template helpers are outside the core and not modelled: `get_*_texto`, `get_*_clase`, `get_color_fondo`, `get_titulo_comanda`, `get_lineas_comanda`, `list`, `mozos` and `manual`.
- The roles are held in a role table passed as a parameter (`Rol.objects`).
- `Usuarios.Usuario.ActualizarRoles`: the role table is assumed to hold one role per name (`TablaValida`). The `nombre` field is not unique in the database, so a table with two rows of one name, where `filter(...).first()` picks one, is not modelled.
- `Mesas.Turno.AgregarEditarOrdenes`: which created order ran short is not tied to the final validation error here; the per-entry shortage rule is stated on `Mesas.Turno.AgregarEditarOrden`.
- `Mesas.Turno.AgregarEditarOrdenes`: request entries are `OrdenPedida` records that carry integer product ids and quantities. The source reads raw request values (`orden["producto"]["id"]`, `orden["cantidad"]`, then `int(cantidad)`). So these paths are not modelled: a missing key raising KeyError, and a text or other non-integer quantity raising ValueError or TypeError.
- `Gastronomia.Pedido.ActualizarStock`: echoed earlier lines are `LineaAnterior` records that carry integer line ids, product ids and quantities. The source reads raw request values (`anterior["id"]`, `anterior["producto"]["id"]`, `anterior["cantidad"]`). So these paths are not modelled: a missing key raising KeyError, and a text quantity raising TypeError in `cantidad - cantidad_anterior`. Also not modelled: a text line id that never equals the integer `linea.id`. That case gives back stock for a line that still exists.
- `JumboSoft.Pedido.constructor`: Django also runs `__init__` whenever a saved order is loaded. Each load saves the order again and records the open state when the history lacks it, for example after `borrar_datos_pedido`. The model runs it only at creation.
- `Comun.Unir` states only the empty and one-message cases. The general join is its body.

## Findings

| source | as written | input that shows it | evidently intended | confidence | as-written member | corrected member |
|---|---|---|---|---|---|---|
| gastronomia/repositorio.py:19 | `int(datos["id"] < 0)` converts the comparison's result, so the raw id is compared with 0 | `{"id": "7"}` raises TypeError, and `{"id": "-3"}` raises TypeError instead of the validation error | `int(datos["id"]) < 0` | high, not executed | `GastronomiaRepositorio.IdTextoRechazado` | `GastronomiaRepositorio.ValidarCrearPedidoCorregido` |
| gastronomia/repositorio.py:48-54 | the built `PedidoLinea` never gets `subtotal`/`total`, which are NOT NULL, so `linea.save()` fails | any request with one line of an existing product | compute the totals (`actualizar_total`) before saving | medium, not executed | `GastronomiaRepositorio.Pedidos.CrearPedido` | `GastronomiaRepositorio.Pedidos.CrearPedidoCorregido` |
| producto/repositorio.py:26-31 | `int()` runs before the `isinstance` test, so a non-numeric quantity or price raises ValueError and the numeric-value messages are unreachable | a line with product 1 and quantity `"x"` | report the numeric-value message | high, not executed | `ProductoRepositorio.CantidadNoNumerica` | `ProductoRepositorio.ValidarCrearIngresoCorregido` |
| base/views.py:320-323 | `delta.days > 1` accepts a token until two whole days have elapsed | a reset date 2 days minus 1 second before now | at most one day old, as the comment at lines 312-313 says | high, not executed | `Vistas.TokenDeCasiDosDias` | `Vistas.BuscarUsuarioTokenResetCorregido` |
| base/views.py:81-93 | an absent `nombre` or `rol` is `None`, which is not `""`, so a `None` filter is added | an empty query string | add the name and role filters only for a given, non-empty value | medium, not executed | `Vistas.FiltroNombreNulo` | `Vistas.GetFiltrosCorregido` |
