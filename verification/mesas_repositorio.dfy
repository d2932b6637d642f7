/**
 * The table repository of mesas/repositorio.py: the table-number
 * uniqueness check used before a table is created or renumbered, and the
 * creation and update of a table. The saved tables are the table
 * `TablaMesas`.
 */
module MesasRepositorio {
  import opened Comun
  import M = Mesas

  /** No two saved tables share a primary key. */
  predicate IdsUnicos(mesas: seq<M.Mesa>)
  {
    forall i, j :: 0 <= i < j < |mesas| ==> mesas[i].id != mesas[j].id
  }

  /** No two saved tables share a number. */
  predicate NumerosUnicos(mesas: seq<M.Mesa>)
    reads mesas
  {
    forall i, j :: 0 <= i < j < |mesas| ==> mesas[i].numero != mesas[j].numero
  }

  /**
   * `Mesa.objects.filter(numero=numero).first()`: among the tables with
   * that number, the one with the smallest key; `None` when there is none.
   */
  function PrimeraConNumero(mesas: seq<M.Mesa>, numero: int): (r: Option<M.Mesa>)
    reads mesas
    ensures r.None? <==> forall i :: 0 <= i < |mesas| ==> mesas[i].numero != numero
    ensures r.Some? ==> r.value in mesas && r.value.numero == numero
    ensures r.Some? ==> forall i :: 0 <= i < |mesas| && mesas[i].numero == numero ==> r.value.id <= mesas[i].id
  {
    if mesas == [] then None
    else
      var previas := mesas[..|mesas| - 1];
      var previa := PrimeraConNumero(previas, numero);
      var ultima := mesas[|mesas| - 1];
      assert forall i :: 0 <= i < |previas| ==> previas[i] == mesas[i];
      if ultima.numero != numero then previa
      else if previa.Some? && previa.value.id <= ultima.id then previa
      else Some(ultima)
  }

  /**
   * `comprobar_numero_repetido(numero, pk)`: the first table with that
   * number counts as a repeat when no table is being edited (`pk == 0`)
   * or when it is not the table being edited (`pk > 0`); a negative `pk`
   * never finds a repeat, and neither does a number no table has.
   */
  function ComprobarNumeroRepetido(mesas: seq<M.Mesa>, numero: int, pk: int): (r: bool)
    reads mesas
    ensures (forall i :: 0 <= i < |mesas| ==> mesas[i].numero != numero) ==> !r
    ensures pk == 0 ==> (r <==> exists i :: 0 <= i < |mesas| && mesas[i].numero == numero)
    ensures pk > 0 ==> (r <==> PrimeraConNumero(mesas, numero).Some? && PrimeraConNumero(mesas, numero).value.id != pk)
    ensures pk < 0 ==> !r
  {
    var repetida := PrimeraConNumero(mesas, numero);
    var existe := repetida.Some?;
    (existe && pk == 0) || (existe && pk > 0 && repetida.value.id != pk)
  }

  /**
   * With unique keys and numbers, renumbering table `mesas[k]` repeats a
   * number exactly when another table already has it; in particular
   * keeping the table's own number is not a repeat.
   */
  lemma RepetidoAlEditar(mesas: seq<M.Mesa>, k: nat, numero: int)
    requires k < |mesas| && mesas[k].id > 0
    requires IdsUnicos(mesas) && NumerosUnicos(mesas)
    ensures ComprobarNumeroRepetido(mesas, numero, mesas[k].id) <==>
      exists j :: 0 <= j < |mesas| && j != k && mesas[j].numero == numero
    ensures !ComprobarNumeroRepetido(mesas, mesas[k].numero, mesas[k].id)
  {
    var p := PrimeraConNumero(mesas, numero);
    if p.Some? {
      var j :| 0 <= j < |mesas| && mesas[j] == p.value;
      assert mesas[j].numero == numero;
      if j == k {
        assert forall i :: 0 <= i < |mesas| && i != k ==> mesas[i].numero != numero;
      } else {
        assert mesas[j].id != mesas[k].id;
      }
    }
    var q := PrimeraConNumero(mesas, mesas[k].numero);
    var j :| 0 <= j < |mesas| && mesas[j] == q.value;
    assert j == k;
  }

  /** The saved tables and the next key the database hands out. */
  class TablaMesas {
    var mesas: seq<M.Mesa>
    var proximoId: nat

    /** Keys are positive, unique, and below the next key to hand out. */
    ghost predicate Valid()
      reads this, mesas
    {
      && proximoId > 0
      && IdsUnicos(mesas)
      && forall i :: 0 <= i < |mesas| ==> 0 < mesas[i].id < proximoId
    }

    constructor ()
      ensures Valid() && mesas == []
    {
      mesas := [];
      proximoId := 1;
    }

    /**
     * `crear_mesa(numero, descripcion)`: a new available table with that
     * number and description is saved under a fresh key, after which the
     * number counts as taken for a new table.
     */
    method CrearMesa(numero: int, descripcion: string) returns (m: M.Mesa)
      requires Valid()
      modifies this
      ensures Valid()
      ensures fresh(m) && mesas == old(mesas) + [m] && m.id == old(proximoId)
      ensures m.numero == numero && m.descripcion == descripcion && m.estado == M.DISPONIBLE && m.turnos == 0
      ensures ComprobarNumeroRepetido(mesas, numero, 0)
    {
      m := new M.Mesa(proximoId, numero, descripcion);
      mesas := mesas + [m];
      proximoId := proximoId + 1;
      assert mesas[|mesas| - 1].numero == numero;
    }
  }

  /**
   * `actualizar_mesa(mesa, numero, descripcion)`: the number and the
   * description are replaced; the key, the state and the turn count stay.
   */
  method ActualizarMesa(mesa: M.Mesa, numero: int, descripcion: string)
    modifies mesa`numero, mesa`descripcion
    ensures mesa.numero == numero && mesa.descripcion == descripcion
    ensures mesa.estado == old(mesa.estado) && mesa.turnos == old(mesa.turnos)
  {
    mesa.numero := numero;
    mesa.descripcion := descripcion;
  }
}
